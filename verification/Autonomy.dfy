/**
 * Durable autonomous opportunities, advanced by compare-and-swap on the whole row.
 *
 * `Opportunity` is the frozen record with its constructor checks, `Swapped` the conditional
 * update every writer uses, and `Apply` interleaves any number of workers that hold private
 * snapshots, wait for the event sink, and may crash between any two steps.
 */
module Autonomy {
  import opened Basics

  const MAX_OPPORTUNITY_ATTEMPTS := 2
  const MAX_AUTONOMOUS_FOLLOWUPS := 1
  const ALLOWED_OPPORTUNITY_KINDS: set<string> :=
    {"commitment", "task", "member-event", "group-ritual", "delayed-scene", "self-open-loop"}

  datatype Status = Scheduled | Emitting | Emitted | Expired

  /** The hashed inputs.  The digest is taken as injective, so they are the opportunity id. */
  datatype Identity = Identity(
    sources: seq<string>,
    group: string,
    audience: seq<string>,
    createdEarliestAt: int,
    expiresAt: int,
    maxAttempts: int,
    kind: string)

  /** autonomy:{opportunity}:{attempt} */
  datatype EventId = EventId(opportunity: Identity, attempt: int)

  datatype Opportunity = Opportunity(
    id: Identity,
    entryReasons: seq<string>,
    literalSubject: string,
    earliestAt: int,
    attempts: int,
    followups: int,
    status: Status,
    sceneVersion: int,
    relationshipVersion: int,
    lastEvent: Option<EventId>)

  // ---------------------------------------------------------------- construction

  const AUTONOMY_PREFIX := "autonomy:"

  predicate Recursive(source: string) {
    AUTONOMY_PREFIX <= source
  }

  predicate AllNamed(values: seq<string>) {
    values != [] && "" !in values
  }

  function Normalized(o: Opportunity): Opportunity {
    o.(id := o.id.(
         sources := Distinct(o.id.sources),
         audience := Distinct(o.id.audience),
         createdEarliestAt := if o.id.createdEarliestAt < 0 then o.earliestAt else o.id.createdEarliestAt),
       entryReasons := Distinct(o.entryReasons))
  }

  /** The checks of the constructor, on normalized fields. */
  predicate Accepted(o: Opportunity) {
    && AllNamed(o.id.sources) && (forall v :: v in o.id.sources ==> !Recursive(v))
    && AllNamed(o.id.audience)
    && AllNamed(o.entryReasons) && (forall v :: v in o.entryReasons ==> v in o.id.sources)
    && o.id.group != ""
    && 0 <= o.earliestAt < o.id.expiresAt
    && 1 <= o.id.maxAttempts <= MAX_OPPORTUNITY_ATTEMPTS
    && o.id.kind in ALLOWED_OPPORTUNITY_KINDS
    && 0 <= o.attempts <= o.id.maxAttempts
    && 0 <= o.followups <= MAX_AUTONOMOUS_FOLLOWUPS
    && o.id.createdEarliestAt <= o.earliestAt
    && 0 <= o.sceneVersion && 0 <= o.relationshipVersion
    && (o.status.Emitting? || o.status.Emitted? ==> o.attempts >= 1 && o.lastEvent.Some?)
  }

  /** None stands for the ValueError of a rejected record. */
  function Constructed(o: Opportunity): Option<Opportunity> {
    if Accepted(Normalized(o)) then Some(Normalized(o)) else None
  }

  predicate Regular(o: Opportunity) {
    && Accepted(o) && 0 <= o.id.createdEarliestAt
    && NoRepeats(o.id.sources) && NoRepeats(o.id.audience) && NoRepeats(o.entryReasons)
  }

  lemma ConstructedIsRegular(o: Opportunity)
    ensures Constructed(o).Some? ==> Regular(Constructed(o).value)
    ensures Regular(o) ==> Constructed(o) == Some(o)
  {
    DistinctIsDistinct(o.id.sources);
    DistinctIsDistinct(o.id.audience);
    DistinctIsDistinct(o.entryReasons);
    if Regular(o) {
      DistinctKeepsDistinct(o.id.sources);
      DistinctKeepsDistinct(o.id.audience);
      DistinctKeepsDistinct(o.entryReasons);
    }
  }

  /** Which records the constructor accepts, in terms of the fields as they were given. */
  lemma ConstructedIff(o: Opportunity)
    ensures Constructed(o).Some? <==>
              && o.id.sources != [] && "" !in o.id.sources && (forall v :: v in o.id.sources ==> !("autonomy:" <= v))
              && o.id.audience != [] && "" !in o.id.audience
              && o.entryReasons != [] && "" !in o.entryReasons && (forall v :: v in o.entryReasons ==> v in o.id.sources)
              && o.id.group != "" && 0 <= o.earliestAt < o.id.expiresAt
              && o.id.maxAttempts in {1, 2} && 0 <= o.attempts <= o.id.maxAttempts && 0 <= o.followups <= 1
              && o.id.kind in {"commitment", "task", "member-event", "group-ritual", "delayed-scene", "self-open-loop"}
              && (o.id.createdEarliestAt < 0 || o.id.createdEarliestAt <= o.earliestAt)
              && 0 <= o.sceneVersion && 0 <= o.relationshipVersion
              && (o.status.Emitting? || o.status.Emitted? ==> o.attempts >= 1 && o.lastEvent.Some?)
    ensures Constructed(o).Some? ==>
              Constructed(o).value == o.(
                id := Constructed(o).value.id, entryReasons := Distinct(o.entryReasons))
    ensures Constructed(o).Some? ==>
              Constructed(o).value.id == o.id.(
                sources := Distinct(o.id.sources), audience := Distinct(o.id.audience),
                createdEarliestAt := if o.id.createdEarliestAt < 0 then o.earliestAt else o.id.createdEarliestAt)
  {
    SameValues(o.id.sources);
    SameValues(o.id.audience);
    SameValues(o.entryReasons);
  }

  // ---------------------------------------------------------------- the table

  /** The columns the due query reads, beside the serialized state. */
  datatype Row = Row(status: Status, earliestAt: int, state: Opportunity)

  type Table = map<Identity, Row>

  function RowOf(o: Opportunity): Row {
    Row(o.status, o.earliestAt, o)
  }

  predicate Matches(table: Table, expected: Opportunity) {
    expected.id in table && table[expected.id].state == expected
  }

  /** UPDATE ... WHERE opportunity_id=? AND state_json=? */
  function Swapped(table: Table, o: Opportunity, expected: Opportunity): Table {
    if o.id == expected.id && Matches(table, expected) then table[o.id := RowOf(o)] else table
  }

  predicate Fresh(o: Opportunity) {
    o.status.Scheduled? && o.attempts == 0 && o.followups == 0 && o.lastEvent.None?
  }

  /** An id that is already stored keeps its row. */
  function Inserted(table: Table, o: Opportunity): Table {
    if o.id in table then table else table[o.id := RowOf(o)]
  }

  predicate IsDue(table: Table, id: Identity, now: int) {
    id in table && (table[id].status.Scheduled? || table[id].status.Emitting?) && table[id].earliestAt <= now
  }

  // ---------------------------------------------------------------- decisions

  datatype Revalidation = Revalidation(
    sceneVersion: int,
    relationshipVersion: int,
    sceneAllows: bool,
    relationshipAllows: bool,
    boundaryActive: bool,
    budgetAvailable: bool,
    quietUntil: Option<int>)
  {
    predicate Valid() {
      sceneVersion >= 1 && relationshipVersion >= 0 && (quietUntil.Some? ==> quietUntil.value >= 0)
    }

    predicate AllGatesAllow() {
      sceneAllows && relationshipAllows && !boundaryActive && budgetAvailable
    }

    predicate QuietAfter(now: int) {
      quietUntil.Some? && quietUntil.value > now
    }
  }

  function Exhausted(o: Opportunity): bool {
    o.attempts >= o.id.maxAttempts
  }

  function Claimed(o: Opportunity): Opportunity {
    if Exhausted(o) then o.(status := Expired)
    else o.(attempts := o.attempts + 1, status := Emitting, lastEvent := Some(EventId(o.id, o.attempts + 1)))
  }

  /** The record one pass of the due loop tries to write in place of `current`. */
  function Proposed(current: Opportunity, context: Revalidation, now: int): Opportunity {
    if current.id.expiresAt <= now then current.(status := Expired)
    else
      var o := current.(sceneVersion := context.sceneVersion, relationshipVersion := context.relationshipVersion);
      if context.QuietAfter(now) then
        if context.quietUntil.value >= o.id.expiresAt then o.(status := Expired)
        else o.(earliestAt := context.quietUntil.value)
      else if context.AllGatesAllow() && o.status.Scheduled? then Claimed(o)
      else o
  }

  /** Nothing speaks against the emission: not expired, not quiet, and every gate is open. */
  predicate MayEmit(o: Opportunity, context: Revalidation, now: int) {
    && now < o.id.expiresAt && (context.quietUntil.None? || context.quietUntil.value <= now)
    && context.sceneAllows && context.relationshipAllows && !context.boundaryActive && context.budgetAvailable
  }

  /** Whether the loop goes on to the emission of `current` once it has written. */
  predicate Proceeds(current: Opportunity, context: Revalidation, now: int) {
    now < current.id.expiresAt && !context.QuietAfter(now) && context.AllGatesAllow()
  }

  predicate MayFollowUp(o: Opportunity) {
    o.status.Emitted? && o.attempts < o.id.maxAttempts && o.followups < MAX_AUTONOMOUS_FOLLOWUPS
  }

  function FollowedUp(o: Opportunity, earliestAt: int): Opportunity {
    o.(earliestAt := earliestAt, followups := o.followups + 1, status := Scheduled)
  }

  datatype Payload = Payload(
    opportunity: Identity,
    sources: seq<string>,
    entryReasons: seq<string>,
    literalSubject: string,
    audience: seq<string>,
    earliestAt: int,
    expiresAt: int,
    maxAttempts: int,
    attempt: int,
    followups: int,
    kind: string,
    sceneVersion: int,
    relationshipVersion: int)

  datatype DueEvent = DueEvent(
    id: EventId,
    occurredAt: int,
    group: string,
    correlation: Identity,
    causation: string,
    payload: Payload)

  function DueEventOf(o: Opportunity, now: int): DueEvent
    requires o.lastEvent.Some? && o.id.sources != []
  {
    DueEvent(o.lastEvent.value, now, o.id.group, o.id, o.id.sources[|o.id.sources| - 1],
             Payload(o.id, o.id.sources, o.entryReasons, o.literalSubject, o.id.audience, o.earliestAt, o.id.expiresAt,
                     o.id.maxAttempts, o.attempts, o.followups, o.id.kind, o.sceneVersion, o.relationshipVersion))
  }

  // ---------------------------------------------------------------- accounting

  /** What every stored record and every snapshot of one satisfies. */
  ghost predicate Accounted(o: Opportunity) {
    && Regular(o)
    && o.lastEvent == (if o.attempts == 0 then None else Some(EventId(o.id, o.attempts)))
    && match o.status
       case Scheduled => o.attempts == o.followups < o.id.maxAttempts
       case Emitting => o.attempts == o.followups + 1
       case Emitted => o.attempts == o.followups + 1
       case Expired => o.attempts == o.followups || o.attempts == o.followups + 1
  }

  /** Position along scheduled, emitting, emitted, scheduled again, ..., with expired last. */
  function Phase(o: Opportunity): int {
    match o.status
    case Scheduled => 3 * o.followups
    case Emitting => 3 * o.followups + 1
    case Emitted => 3 * o.followups + 2
    case Expired => 6
  }

  ghost predicate Advances(o: Opportunity, n: Opportunity) {
    && n.id == o.id
    && n.entryReasons == o.entryReasons && n.literalSubject == o.literalSubject
    && o.attempts <= n.attempts && o.followups <= n.followups
    && (Phase(n) == Phase(o) || (Phase(n) == Phase(o) + 1 && !n.status.Expired?) || n.status.Expired?)
    && (o.status.Expired? ==> n.status.Expired? && n.attempts == o.attempts)
    && (n.attempts != o.attempts ==> o.status.Scheduled? && n.status.Emitting? && n.attempts == o.attempts + 1)
    && (n.status.Scheduled? && !o.status.Scheduled? ==> o.status.Emitted?)
    && (n.status.Emitted? && !o.status.Emitted? ==> o.status.Emitting?)
  }

  /** A pass of the due loop writes an acceptable next record, and never finds its attempts used up. */
  lemma ProposedAdvances(o: Opportunity, context: Revalidation, now: int)
    requires Accounted(o) && context.Valid() && o.id.createdEarliestAt <= now
    ensures Accounted(Proposed(o, context, now)) && Advances(o, Proposed(o, context, now))
    ensures o.status.Scheduled? ==> !Exhausted(o)
    ensures Proceeds(o, context, now) && o.status.Scheduled? ==> Proposed(o, context, now).status.Emitting?
  {
  }

  lemma FollowedUpAdvances(o: Opportunity, earliestAt: int)
    requires Accounted(o) && MayFollowUp(o) && Constructed(FollowedUp(o, earliestAt)).Some?
    ensures Accounted(FollowedUp(o, earliestAt)) && Advances(o, FollowedUp(o, earliestAt))
    ensures Constructed(FollowedUp(o, earliestAt)) == Some(FollowedUp(o, earliestAt))
  {
    DistinctKeepsDistinct(o.id.sources);
    DistinctKeepsDistinct(o.id.audience);
    DistinctKeepsDistinct(o.entryReasons);
  }

  // ---------------------------------------------------------------- workers

  datatype Point =
    | Between                                  // about to take the next due id
    | Holding(current: Opportunity)            // read the row, has not written yet
    | Rereading(id: Identity)                  // lost a race, about to read the row again
    | Sending(claim: Opportunity)              // about to hand the event to the sink
    | Sent(claim: Opportunity)                 // the sink has it, not yet recorded
    | FollowingUp(current: Opportunity, earliestAt: int)

  datatype Worker = Worker(point: Point, due: seq<Identity>, now: int)

  datatype System = System(table: Table, workers: map<nat, Worker>, sink: seq<DueEvent>)

  datatype Action =
    | Schedule(spec: Opportunity)
    | Query(w: nat, now: int, due: seq<Identity>)
    | Load(w: nat)
    | Decide(w: nat, context: Revalidation)
    | Reread(w: nat)
    | Deliver(w: nat)
    | Complete(w: nat)
    | ReadFollowUp(w: nat, id: Identity, earliestAt: int, now: int)
    | CommitFollowUp(w: nat)
    | Stop(w: nat)   // crash, exception, or the end of a call

  const Init := System(map[], map[], [])

  predicate Enabled(s: System, a: Action) {
    match a
    case Schedule(spec) => Constructed(spec).Some? && Fresh(Constructed(spec).value)
    case Query(w, now, due) =>
      w !in s.workers && now >= 0 && NoRepeats(due) && forall id :: id in due ==> IsDue(s.table, id, now)
    case Load(w) => w in s.workers && s.workers[w].point.Between? && s.workers[w].due != [] && s.workers[w].due[0] in s.table
    case Decide(w, context) => w in s.workers && s.workers[w].point.Holding? && context.Valid()
    case Reread(w) => w in s.workers && s.workers[w].point.Rereading? && s.workers[w].point.id in s.table
    case Deliver(w) =>
      && w in s.workers && s.workers[w].point.Sending?
      && s.workers[w].point.claim.lastEvent.Some? && s.workers[w].point.claim.id.sources != []
    case Complete(w) => w in s.workers && s.workers[w].point.Sent?
    case ReadFollowUp(w, id, earliestAt, now) =>
      && w !in s.workers && id in s.table && MayFollowUp(s.table[id].state) && now <= earliestAt < id.expiresAt
      && Constructed(FollowedUp(s.table[id].state, earliestAt)).Some?
    case CommitFollowUp(w) => w in s.workers && s.workers[w].point.FollowingUp?
    case Stop(w) => w in s.workers
  }

  function At(s: System, w: nat, point: Point): System
    requires w in s.workers
  {
    s.(workers := s.workers[w := s.workers[w].(point := point)])
  }

  /** Where a worker goes once it has an opportunity in hand: only an emitting one is sent. */
  function AfterWrite(o: Opportunity): Point {
    if o.status.Emitting? then Sending(o) else Between
  }

  function DecidePoint(s: System, current: Opportunity, context: Revalidation, now: int): Point {
    if !Proceeds(current, context, now) then Between
    else if Matches(s.table, current) && !(current.status.Scheduled? && Exhausted(current)) then
      AfterWrite(Proposed(current, context, now))
    else Rereading(current.id)
  }

  function Apply(s: System, a: Action): System
    requires Enabled(s, a)
  {
    match a
    case Schedule(spec) => s.(table := Inserted(s.table, Constructed(spec).value))
    case Query(w, now, due) => s.(workers := s.workers[w := Worker(Between, due, now)])
    case Load(w) =>
      var worker := s.workers[w];
      s.(workers := s.workers[w := Worker(Holding(s.table[worker.due[0]].state), worker.due[1..], worker.now)])
    case Decide(w, context) =>
      var current, now := s.workers[w].point.current, s.workers[w].now;
      At(s, w, DecidePoint(s, current, context, now)).(
        table := Swapped(s.table, Proposed(current, context, now), current))
    case Reread(w) => At(s, w, AfterWrite(s.table[s.workers[w].point.id].state))
    case Deliver(w) =>
      var claim := s.workers[w].point.claim;
      At(s, w, Sent(claim)).(sink := s.sink + [DueEventOf(claim, s.workers[w].now)])
    case Complete(w) =>
      var claim := s.workers[w].point.claim;
      At(s, w, Between).(table := Swapped(s.table, claim.(status := Emitted), claim))
    case ReadFollowUp(w, id, earliestAt, now) =>
      s.(workers := s.workers[w := Worker(FollowingUp(s.table[id].state, earliestAt), [], now)])
    case CommitFollowUp(w) =>
      var p := s.workers[w].point;
      s.(workers := s.workers - {w}, table := Swapped(s.table, FollowedUp(p.current, p.earliestAt), p.current))
    case Stop(w) => s.(workers := s.workers - {w})
  }

  function Run(s: System, acts: seq<Action>): Option<System>
    decreases |acts|
  {
    if acts == [] then Some(s)
    else if Enabled(s, acts[0]) then Run(Apply(s, acts[0]), acts[1..])
    else None
  }

  // ---------------------------------------------------------------- invariant of all runs

  ghost predicate TableInv(table: Table) {
    forall id :: id in table ==> table[id].state.id == id && table[id] == RowOf(table[id].state) && Accounted(table[id].state)
  }

  /** A snapshot is an accounted record of a stored opportunity that has got no further than its row. */
  ghost predicate Snapshot(table: Table, o: Opportunity) {
    && Accounted(o) && o.id in table
    && o.entryReasons == table[o.id].state.entryReasons && o.literalSubject == table[o.id].state.literalSubject
    && o.attempts <= table[o.id].state.attempts
    && Phase(o) <= Phase(table[o.id].state)
  }

  predicate Delivered(sink: seq<DueEvent>, id: EventId) {
    exists e :: e in sink && e.id == id
  }

  ghost predicate WorkerInv(s: System, k: Worker) {
    && (forall id :: id in k.due ==> id in s.table && id.createdEarliestAt <= k.now)
    && match k.point
       case Between => true
       case Holding(o) => Snapshot(s.table, o) && o.id.createdEarliestAt <= k.now
       case Rereading(id) => id in s.table && k.now < id.expiresAt
       case Sending(o) => Snapshot(s.table, o) && o.status.Emitting? && k.now < o.id.expiresAt
       case Sent(o) => Snapshot(s.table, o) && o.status.Emitting? && Delivered(s.sink, EventId(o.id, o.attempts))
       case FollowingUp(o, at) => Snapshot(s.table, o) && MayFollowUp(o) && Constructed(FollowedUp(o, at)).Some?
  }

  /** Every event handed to the sink is one attempt of a stored opportunity, before it expires. */
  ghost predicate EventInv(table: Table, e: DueEvent) {
    && e.id.opportunity in table
    && 1 <= e.id.attempt <= table[e.id.opportunity].state.attempts
    && e.occurredAt < e.id.opportunity.expiresAt
    && e.payload.entryReasons == table[e.id.opportunity].state.entryReasons
    && e.payload.literalSubject == table[e.id.opportunity].state.literalSubject
    && exists o: Opportunity :: Accounted(o) && o.status.Emitting? && o.id == e.id.opportunity && e == DueEventOf(o, e.occurredAt)
  }

  predicate MustBeDelivered(o: Opportunity, k: int) {
    1 <= k <= o.attempts && (k < o.attempts || o.status.Scheduled? || o.status.Emitted?)
  }

  /** An attempt that has been passed, or recorded as emitted, has reached the sink. */
  ghost predicate DeliveryInv(s: System) {
    forall id, k :: id in s.table && MustBeDelivered(s.table[id].state, k) ==> Delivered(s.sink, EventId(id, k))
  }

  ghost predicate Inv(s: System) {
    && TableInv(s.table)
    && (forall w :: w in s.workers ==> WorkerInv(s, s.workers[w]))
    && (forall e :: e in s.sink ==> EventInv(s.table, e))
    && DeliveryInv(s)
  }

  /** How the table may change in one step. */
  ghost predicate TableAdvances(t: Table, t': Table) {
    && (forall id :: id in t ==> id in t' && Advances(t[id].state, t'[id].state))
    && (forall id :: id in t' && id !in t ==> Fresh(t'[id].state))
  }

  lemma SwapAdvances(table: Table, o: Opportunity, expected: Opportunity)
    requires TableInv(table) && Accounted(o) && Advances(expected, o)
    ensures TableInv(Swapped(table, o, expected)) && TableAdvances(table, Swapped(table, o, expected))
  {
    if Matches(table, expected) {
      assert o.id == expected.id && Swapped(table, o, expected) == table[o.id := RowOf(o)];
    } else {
      assert Swapped(table, o, expected) == table;
      forall id | id in table ensures Advances(table[id].state, table[id].state) {
      }
    }
  }

  lemma DecideTable(s: System, a: Action)
    requires Inv(s) && Enabled(s, a) && a.Decide?
    ensures TableInv(Apply(s, a).table) && TableAdvances(s.table, Apply(s, a).table)
  {
    assert WorkerInv(s, s.workers[a.w]);
    var current, now := s.workers[a.w].point.current, s.workers[a.w].now;
    ProposedAdvances(current, a.context, now);
    SwapAdvances(s.table, Proposed(current, a.context, now), current);
  }

  lemma CompleteTable(s: System, a: Action)
    requires Inv(s) && Enabled(s, a) && a.Complete?
    ensures TableInv(Apply(s, a).table) && TableAdvances(s.table, Apply(s, a).table)
  {
    assert WorkerInv(s, s.workers[a.w]);
    var claim := s.workers[a.w].point.claim;
    SwapAdvances(s.table, claim.(status := Emitted), claim);
  }

  lemma FollowUpTable(s: System, a: Action)
    requires Inv(s) && Enabled(s, a) && a.CommitFollowUp?
    ensures TableInv(Apply(s, a).table) && TableAdvances(s.table, Apply(s, a).table)
  {
    assert WorkerInv(s, s.workers[a.w]);
    var p := s.workers[a.w].point;
    FollowedUpAdvances(p.current, p.earliestAt);
    SwapAdvances(s.table, FollowedUp(p.current, p.earliestAt), p.current);
  }

  lemma ScheduleTable(s: System, a: Action)
    requires TableInv(s.table) && Enabled(s, a) && a.Schedule?
    ensures TableInv(Apply(s, a).table) && TableAdvances(s.table, Apply(s, a).table)
  {
    ConstructedIsRegular(a.spec);
  }

  /** Every step moves every row along its phases, or leaves it. */
  lemma TableStep(s: System, a: Action)
    requires Inv(s) && Enabled(s, a)
    ensures TableInv(Apply(s, a).table) && TableAdvances(s.table, Apply(s, a).table)
  {
    if a.Schedule? {
      ScheduleTable(s, a);
    } else if a.Decide? {
      DecideTable(s, a);
    } else if a.Complete? {
      CompleteTable(s, a);
    } else if a.CommitFollowUp? {
      FollowUpTable(s, a);
    }
  }

  lemma SnapshotStays(t: Table, t': Table, o: Opportunity)
    requires TableInv(t) && TableAdvances(t, t') && Snapshot(t, o)
    ensures Snapshot(t', o)
  {
  }

  lemma WorkerStays(s: System, s': System, k: Worker)
    requires TableInv(s.table) && TableAdvances(s.table, s'.table) && s.sink <= s'.sink && WorkerInv(s, k)
    ensures WorkerInv(s', k)
  {
    match k.point
    case Holding(o) => SnapshotStays(s.table, s'.table, o);
    case Sending(o) => SnapshotStays(s.table, s'.table, o);
    case Sent(o) =>
      SnapshotStays(s.table, s'.table, o);
      DeliveredStays(s.sink, s'.sink, EventId(o.id, o.attempts));
    case FollowingUp(o, _) => SnapshotStays(s.table, s'.table, o);
    case _ =>
  }

  lemma DeliveredStays(sink: seq<DueEvent>, sink': seq<DueEvent>, id: EventId)
    requires sink <= sink' && Delivered(sink, id)
    ensures Delivered(sink', id)
  {
    var e :| e in sink && e.id == id;
    assert e in sink';
  }

  /** The one worker a step moves. */
  function Mover(a: Action): Option<nat> {
    match a
    case Schedule(_) => None
    case Query(w, _, _) => Some(w)
    case Load(w) => Some(w)
    case Decide(w, _) => Some(w)
    case Reread(w) => Some(w)
    case Deliver(w) => Some(w)
    case Complete(w) => Some(w)
    case ReadFollowUp(w, _, _, _) => Some(w)
    case CommitFollowUp(w) => Some(w)
    case Stop(w) => Some(w)
  }

  /** A worker that has just written, or just read the row again, holds what the row says. */
  lemma DecideHolds(s: System, a: Action)
    requires Inv(s) && Enabled(s, a) && a.Decide?
    ensures WorkerInv(Apply(s, a), Apply(s, a).workers[a.w])
  {
    TableStep(s, a);
    assert WorkerInv(s, s.workers[a.w]);
    WorkerStays(s, Apply(s, a), s.workers[a.w].(point := Between));
    var current, now := s.workers[a.w].point.current, s.workers[a.w].now;
    ProposedAdvances(current, a.context, now);
    if Proceeds(current, a.context, now) && Matches(s.table, current) {
      assert Apply(s, a).table[current.id].state == Proposed(current, a.context, now);
    }
  }

  lemma DeliverHolds(s: System, a: Action)
    requires Inv(s) && Enabled(s, a) && a.Deliver?
    ensures WorkerInv(Apply(s, a), Apply(s, a).workers[a.w])
  {
    assert WorkerInv(s, s.workers[a.w]);
    var claim := s.workers[a.w].point.claim;
    var e := DueEventOf(claim, s.workers[a.w].now);
    assert Apply(s, a).sink[|s.sink|] == e && e.id == EventId(claim.id, claim.attempts);
  }

  lemma MoverHolds(s: System, a: Action, w: nat)
    requires Inv(s) && Enabled(s, a) && Mover(a) == Some(w) && w in Apply(s, a).workers
    ensures WorkerInv(Apply(s, a), Apply(s, a).workers[w])
  {
    if w in s.workers {
      assert WorkerInv(s, s.workers[w]);
    }
    match a
    case Decide(_, _) => DecideHolds(s, a);
    case Deliver(_) => DeliverHolds(s, a);
    case Complete(_) =>
      TableStep(s, a);
      WorkerStays(s, Apply(s, a), s.workers[w].(point := Between));
    case _ => ReadHolds(s, a, w);
  }

  /** The steps that only read. */
  lemma ReadHolds(s: System, a: Action, w: nat)
    requires Inv(s) && Enabled(s, a) && Mover(a) == Some(w) && w in Apply(s, a).workers
    requires !a.Decide? && !a.Deliver? && !a.Complete?
    ensures WorkerInv(Apply(s, a), Apply(s, a).workers[w])
  {
    assert Apply(s, a).table == s.table;
    if w in s.workers {
      assert WorkerInv(s, s.workers[w]);
    }
  }

  lemma WorkersStep(s: System, a: Action)
    requires Inv(s) && Enabled(s, a)
    ensures var s' := Apply(s, a); forall w :: w in s'.workers ==> WorkerInv(s', s'.workers[w])
  {
    var s' := Apply(s, a);
    TableStep(s, a);
    forall w | w in s'.workers ensures WorkerInv(s', s'.workers[w]) {
      if Mover(a) == Some(w) {
        MoverHolds(s, a, w);
      } else {
        assert s'.workers[w] == s.workers[w];
        WorkerStays(s, s', s.workers[w]);
      }
    }
  }

  lemma EventStays(t: Table, t': Table, e: DueEvent)
    requires TableAdvances(t, t') && EventInv(t, e)
    ensures EventInv(t', e)
  {
  }

  lemma SinkStep(s: System, a: Action)
    requires Inv(s) && Enabled(s, a)
    ensures var s' := Apply(s, a); s.sink <= s'.sink && forall e :: e in s'.sink ==> EventInv(s'.table, e)
  {
    var s' := Apply(s, a);
    TableStep(s, a);
    forall e | e in s'.sink ensures EventInv(s'.table, e) {
      if e in s.sink {
        EventStays(s.table, s'.table, e);
      } else {
        assert WorkerInv(s, s.workers[a.w]);
        var claim := s.workers[a.w].point.claim;
        assert e == DueEventOf(claim, e.occurredAt);
      }
    }
  }

  /** Only `Complete` records an emission, and it does so for an event the sink already has. */
  lemma EmittedWasDelivered(s: System, a: Action, id: Identity)
    requires Inv(s) && Enabled(s, a) && id in s.table && s.table[id].status.Emitting?
    requires id in Apply(s, a).table && Apply(s, a).table[id].status.Emitted?
    ensures a.Complete? && Delivered(s.sink, EventId(id, s.table[id].state.attempts))
  {
    if a.Complete? {
      assert WorkerInv(s, s.workers[a.w]);
    } else {
      OthersRecordNoEmission(s, a, id);
    }
  }

  lemma OthersRecordNoEmission(s: System, a: Action, id: Identity)
    requires TableInv(s.table) && Enabled(s, a) && !a.Complete? && id in s.table && s.table[id].status.Emitting?
    ensures id in Apply(s, a).table && !Apply(s, a).table[id].status.Emitted?
  {
  }

  lemma DeliveryStep(s: System, a: Action)
    requires Inv(s) && Enabled(s, a)
    ensures DeliveryInv(Apply(s, a))
  {
    var s' := Apply(s, a);
    TableStep(s, a);
    SinkStep(s, a);
    forall id, k | id in s'.table && MustBeDelivered(s'.table[id].state, k) ensures Delivered(s'.sink, EventId(id, k)) {
      assert id in s.table by {
        assert id !in s.table ==> Fresh(s'.table[id].state);
      }
      assert Advances(s.table[id].state, s'.table[id].state);
      if !MustBeDelivered(s.table[id].state, k) {
        EmittedWasDelivered(s, a, id);
      }
      DeliveredStays(s.sink, s'.sink, EventId(id, k));
    }
  }

  lemma StepKeepsInv(s: System, a: Action)
    requires Inv(s) && Enabled(s, a)
    ensures Inv(Apply(s, a))
  {
    TableStep(s, a);
    WorkersStep(s, a);
    SinkStep(s, a);
    DeliveryStep(s, a);
  }

  lemma {:induction false} RunKeepsInv(s: System, acts: seq<Action>)
    requires Inv(s) && Run(s, acts).Some?
    ensures Inv(Run(s, acts).value)
    decreases |acts|
  {
    if acts != [] {
      StepKeepsInv(s, acts[0]);
      RunKeepsInv(Apply(s, acts[0]), acts[1..]);
    }
  }

  // ---------------------------------------------------------------- what every run guarantees

  /**
   * Under any interleaving and any crashes: identities are kept, times stay ordered, and the
   * attempt counter, the follow-up counter and the last event id agree with the status.
   */
  lemma RowsAreAccounted(acts: seq<Action>, id: Identity)
    requires Run(Init, acts).Some? && id in Run(Init, acts).value.table
    ensures var o := Run(Init, acts).value.table[id].state;
            && o.id == id && Run(Init, acts).value.table[id] == RowOf(o)
            && 0 <= id.createdEarliestAt <= o.earliestAt < id.expiresAt
            && (o.status.Scheduled? ==> o.attempts == o.followups && !Exhausted(o))
            && (o.status.Emitting? || o.status.Emitted? ==> o.attempts == o.followups + 1)
            && o.lastEvent == (if o.attempts == 0 then None else Some(EventId(id, o.attempts)))
  {
    RunKeepsInv(Init, acts);
  }

  function Attempts(id: Identity, n: nat): set<EventId> {
    if n == 0 then {} else Attempts(id, n - 1) + {EventId(id, n)}
  }

  lemma {:induction false} AttemptsCounted(id: Identity, n: nat)
    ensures |Attempts(id, n)| <= n
    ensures forall k :: 1 <= k <= n ==> EventId(id, k) in Attempts(id, n)
  {
    if n > 0 {
      AttemptsCounted(id, n - 1);
    }
  }

  function EventIds(sink: seq<DueEvent>, id: Identity): set<EventId> {
    set e | e in sink && e.id.opportunity == id :: e.id
  }

  /** At most max_attempts, so at most two, distinct events of an opportunity ever reach the sink. */
  lemma BoundedEvents(acts: seq<Action>, id: Identity)
    requires Run(Init, acts).Some?
    ensures var s := Run(Init, acts).value;
            && |EventIds(s.sink, id)| <= MAX_OPPORTUNITY_ATTEMPTS
            && (id in s.table ==> |EventIds(s.sink, id)| <= id.maxAttempts)
            && (id !in s.table ==> EventIds(s.sink, id) == {})
  {
    RunKeepsInv(Init, acts);
    var s := Run(Init, acts).value;
    if id in s.table {
      AttemptsCounted(id, id.maxAttempts);
      forall e | e in s.sink && e.id.opportunity == id ensures e.id in Attempts(id, id.maxAttempts) {
        assert EventInv(s.table, e);
        assert e.id == EventId(id, e.id.attempt);
      }
      SubsetSize(EventIds(s.sink, id), Attempts(id, id.maxAttempts));
    }
  }

  /** What an event says of the stored opportunity it is for. */
  ghost predicate EventTells(e: DueEvent, o: Opportunity) {
    && e.correlation == o.id && o.id.sources != [] && e.causation == o.id.sources[|o.id.sources| - 1]
    && e.payload.sources == o.id.sources && e.payload.entryReasons == o.entryReasons
    && e.payload.literalSubject == o.literalSubject && e.payload.maxAttempts == o.id.maxAttempts
    && e.payload.kind == o.id.kind && e.payload.followups == e.payload.attempt - 1
  }

  /** Nothing is emitted at or after the expiry, and an attempt counts as emitted only once the sink has it. */
  lemma EmissionsAreGenuine(acts: seq<Action>, e: DueEvent, id: Identity)
    requires Run(Init, acts).Some?
    ensures var s := Run(Init, acts).value;
            && (e in s.sink ==>
                  && e.id.opportunity in s.table && e.payload.opportunity == e.id.opportunity
                  && e.occurredAt < e.payload.expiresAt == e.id.opportunity.expiresAt
                  && e.payload.attempt == e.id.attempt <= s.table[e.id.opportunity].state.attempts
                  && e.group == e.id.opportunity.group && e.payload.audience == e.id.opportunity.audience
                  && EventTells(e, s.table[e.id.opportunity].state))
            && (id in s.table && s.table[id].status.Emitted? ==> Delivered(s.sink, EventId(id, s.table[id].state.attempts)))
  {
    RunKeepsInv(Init, acts);
    var s := Run(Init, acts).value;
    if e in s.sink {
      assert EventInv(s.table, e);
    }
    if id in s.table && s.table[id].status.Emitted? {
      assert MustBeDelivered(s.table[id].state, s.table[id].state.attempts);
    }
  }

  /** Where a decision leads: the claim is sent if the row was still the one read, else the row is read again. */
  lemma DecideMeans(s: System, a: Action)
    requires Inv(s) && a.Decide? && Enabled(s, a)
    ensures var k, n := s.workers[a.w], Apply(s, a).workers[a.w];
            var o := k.point.current;
            && n.due == k.due && n.now == k.now
            && if !MayEmit(o, a.context, k.now) then n.point.Between?
               else if s.table[o.id].state != o then n.point == Rereading(o.id)
               else if o.status.Scheduled? || o.status.Emitting? then
                 n.point == Sending(Apply(s, a).table[o.id].state) && Apply(s, a).table[o.id].status.Emitting?
               else n.point.Between?
  {
    assert WorkerInv(s, s.workers[a.w]);
  }

  /** Whoever lost a race sends what the row has become, if that is an attempt under way, and drops it otherwise. */
  lemma RereadMeans(s: System, w: nat)
    requires Enabled(s, Reread(w))
    ensures var o := s.table[s.workers[w].point.id].state;
            Apply(s, Reread(w)).workers[w].point == if o.status.Emitting? then Sending(o) else Between
  {
  }

  /** A decision sends an event, or reads the row again to send it, only if nothing speaks against it. */
  lemma SendsOnlyIfOpen(s: System, a: Action)
    requires a.Decide? && Enabled(s, a)
    requires Apply(s, a).workers[a.w].point.Sending? || Apply(s, a).workers[a.w].point.Rereading?
    ensures MayEmit(s.workers[a.w].point.current, a.context, s.workers[a.w].now)
  {
  }

  ghost predicate Further(o: Opportunity, n: Opportunity) {
    n.id == o.id && Phase(o) <= Phase(n) && (o.status.Expired? ==> n.status.Expired? && n.attempts == o.attempts)
  }

  lemma StepIsFurther(s: System, a: Action, id: Identity)
    requires Inv(s) && Enabled(s, a) && id in s.table
    ensures id in Apply(s, a).table && Further(s.table[id].state, Apply(s, a).table[id].state)
  {
    TableStep(s, a);
    AdvancesIsFurther(s.table[id].state, Apply(s, a).table[id].state);
  }

  lemma AdvancesIsFurther(o: Opportunity, n: Opportunity)
    requires Accounted(o) && Advances(o, n)
    ensures Further(o, n)
  {
  }

  lemma {:induction false} RunAdvances(s: System, acts: seq<Action>, id: Identity)
    requires Inv(s) && Run(s, acts).Some? && id in s.table
    ensures id in Run(s, acts).value.table && Further(s.table[id].state, Run(s, acts).value.table[id].state)
    decreases |acts|
  {
    if acts != [] {
      StepKeepsInv(s, acts[0]);
      StepIsFurther(s, acts[0], id);
      RunAdvances(Apply(s, acts[0]), acts[1..], id);
    }
  }

  /**
   * No opportunity ever goes back: from any reachable state on, its phase only grows, one
   * step moves it along at most one phase or expires it, and an expired one stays expired.
   */
  lemma NeverGoesBack(before: seq<Action>, after: seq<Action>, a: Action, id: Identity)
    requires Run(Init, before).Some? && Run(Run(Init, before).value, after).Some?
    requires id in Run(Init, before).value.table
    ensures var s := Run(Init, before).value; var t := Run(s, after).value.table;
            && id in t && Further(s.table[id].state, t[id].state)
            && (Enabled(s, a) ==> id in Apply(s, a).table && Advances(s.table[id].state, Apply(s, a).table[id].state))
  {
    RunKeepsInv(Init, before);
    var s := Run(Init, before).value;
    RunAdvances(s, after, id);
    if Enabled(s, a) {
      TableStep(s, a);
    }
  }

  /** A stale claim marks nothing: recording changes a row only if it still is that very claim. */
  lemma StaleClaimMarksNothing(s: System, w: nat, id: Identity)
    requires Inv(s) && Enabled(s, Complete(w)) && id in s.table
    ensures var claim := s.workers[w].point.claim; var t := Apply(s, Complete(w)).table;
            && id in t
            && (t[id] != s.table[id] <==> id == claim.id && s.table[id].state == claim)
            && (t[id] != s.table[id] ==> t[id].status.Emitted? && t[id].state.attempts == claim.attempts)
            && (claim.attempts < s.table[id].state.attempts ==> t[id] == s.table[id])
  {
    assert WorkerInv(s, s.workers[w]);
  }

  /** Every record a worker builds passes the constructor's checks, so no pass of the loop raises. */
  lemma RewritesAreAccepted(acts: seq<Action>, w: nat, context: Revalidation)
    requires Run(Init, acts).Some? && w in Run(Init, acts).value.workers && context.Valid()
    ensures var k := Run(Init, acts).value.workers[w];
            && (k.point.Holding? ==>
                  Constructed(Proposed(k.point.current, context, k.now)) == Some(Proposed(k.point.current, context, k.now)))
            && (k.point.Sent? ==>
                  Constructed(k.point.claim.(status := Emitted)) == Some(k.point.claim.(status := Emitted)))
  {
    RunKeepsInv(Init, acts);
    var s := Run(Init, acts).value;
    var k := s.workers[w];
    assert WorkerInv(s, k);
    if k.point.Holding? {
      ProposedIsAccepted(k.point.current, context, k.now);
    } else if k.point.Sent? {
      EmittedIsAccepted(k.point.claim);
    }
  }

  lemma ProposedIsAccepted(o: Opportunity, context: Revalidation, now: int)
    requires Accounted(o) && context.Valid() && o.id.createdEarliestAt <= now
    ensures Constructed(Proposed(o, context, now)) == Some(Proposed(o, context, now))
  {
    ProposedAdvances(o, context, now);
    ConstructedIsRegular(Proposed(o, context, now));
  }

  lemma EmittedIsAccepted(o: Opportunity)
    requires Accounted(o) && o.status.Emitting?
    ensures Constructed(o.(status := Emitted)) == Some(o.(status := Emitted))
  {
    ConstructedIsRegular(o.(status := Emitted));
  }

  // ---------------------------------------------------------------- early emissions

  predicate InWindow(e: DueEvent) {
    e.payload.earliestAt <= e.occurredAt
  }

  /** With one worker at a time the row of every id still to be processed is as the due query saw it. */
  ghost predicate SoloWorker(table: Table, k: Worker) {
    && NoRepeats(k.due)
    && (forall id :: id in k.due ==> id in table && table[id].state.earliestAt <= k.now)
    && match k.point
       case Holding(o) => Matches(table, o) && o.id !in k.due && o.earliestAt <= k.now
       case Sending(o) => o.id !in k.due && o.earliestAt <= k.now
       case Sent(o) => o.id !in k.due
       case Rereading(_) => false
       case _ => true
  }

  ghost predicate SoloInv(s: System) {
    && (forall w, v :: w in s.workers && v in s.workers ==> w == v)
    && (forall w :: w in s.workers ==> SoloWorker(s.table, s.workers[w]))
    && (forall e :: e in s.sink ==> InWindow(e))
  }

  /** A worker starts only when no other one is active. */
  predicate StartsAlone(s: System, a: Action) {
    a.Query? || a.ReadFollowUp? ==> s.workers == map[]
  }

  lemma SoloLoad(s: System, w: nat)
    requires TableInv(s.table) && Enabled(s, Load(w)) && SoloWorker(s.table, s.workers[w])
    ensures SoloWorker(s.table, Apply(s, Load(w)).workers[w])
  {
    var due := s.workers[w].due;
    assert due == [due[0]] + due[1..];
  }

  lemma SoloDecide(s: System, a: Action)
    requires Inv(s) && Enabled(s, a) && a.Decide? && SoloWorker(s.table, s.workers[a.w])
    ensures SoloWorker(Apply(s, a).table, Apply(s, a).workers[a.w])
  {
    assert WorkerInv(s, s.workers[a.w]);
    ProposedAdvances(s.workers[a.w].point.current, a.context, s.workers[a.w].now);
  }

  lemma SoloMover(s: System, a: Action, w: nat)
    requires Inv(s) && SoloInv(s) && Enabled(s, a) && StartsAlone(s, a) && Mover(a) == Some(w) && w in Apply(s, a).workers
    ensures SoloWorker(Apply(s, a).table, Apply(s, a).workers[w])
  {
    if w in s.workers {
      assert SoloWorker(s.table, s.workers[w]);
    }
    match a
    case Decide(_, _) => SoloDecide(s, a);
    case Load(_) => SoloLoad(s, w);
    case _ =>
  }

  lemma SoloSink(s: System, a: Action)
    requires SoloInv(s) && Enabled(s, a)
    ensures forall e :: e in Apply(s, a).sink ==> InWindow(e)
  {
    if a.Deliver? {
      assert SoloWorker(s.table, s.workers[a.w]);
    }
  }

  lemma SoloStep(s: System, a: Action)
    requires Inv(s) && SoloInv(s) && Enabled(s, a) && StartsAlone(s, a)
    ensures SoloInv(Apply(s, a))
  {
    SoloSink(s, a);
    SoloStays(s, a);
    forall w | w in Apply(s, a).workers ensures SoloWorker(Apply(s, a).table, Apply(s, a).workers[w]) {
      SoloOne(s, a, w);
    }
  }

  lemma SoloStays(s: System, a: Action)
    requires SoloInv(s) && Enabled(s, a) && StartsAlone(s, a)
    ensures forall w, v :: w in Apply(s, a).workers && v in Apply(s, a).workers ==> w == v
  {
  }

  lemma SoloOne(s: System, a: Action, w: nat)
    requires Inv(s) && SoloInv(s) && Enabled(s, a) && StartsAlone(s, a) && w in Apply(s, a).workers
    ensures SoloWorker(Apply(s, a).table, Apply(s, a).workers[w])
  {
    if Mover(a) == Some(w) {
      SoloMover(s, a, w);
    } else {
      assert a.Schedule? && w in s.workers;
      InsertedIsSolo(s.table, Constructed(a.spec).value, s.workers[w]);
    }
  }

  lemma InsertedIsSolo(table: Table, o: Opportunity, k: Worker)
    requires SoloWorker(table, k)
    ensures SoloWorker(Inserted(table, o), k)
  {
  }

  predicate Solo(s: System, acts: seq<Action>)
    decreases |acts|
  {
    acts == [] || (StartsAlone(s, acts[0]) && (Enabled(s, acts[0]) ==> Solo(Apply(s, acts[0]), acts[1..])))
  }

  lemma {:induction false} SoloRun(s: System, acts: seq<Action>)
    requires Inv(s) && SoloInv(s) && Solo(s, acts) && Run(s, acts).Some?
    ensures SoloInv(Run(s, acts).value)
    decreases |acts|
  {
    if acts != [] {
      StepKeepsInv(s, acts[0]);
      SoloStep(s, acts[0]);
      SoloRun(Apply(s, acts[0]), acts[1..]);
    }
  }

  /** While workers never overlap, nothing is emitted before its earliest time either. */
  lemma LoneWorkersEmitInWindow(acts: seq<Action>, e: DueEvent)
    requires Run(Init, acts).Some? && Solo(Init, acts) && e in Run(Init, acts).value.sink
    ensures InWindow(e)
  {
    SoloRun(Init, acts);
  }

  /**
   * The loop never looks at the earliest time of the record it has just read.  The emission
   * is in its window exactly when that record, or the one read again after a lost race, is due.
   */
  lemma InWindowIffReadDue(s: System, w: nat, context: Revalidation)
    requires Inv(s) && w in s.workers
    ensures var k := s.workers[w];
            && (Enabled(s, Decide(w, context)) ==>
                  var p := Apply(s, Decide(w, context)).workers[w].point;
                  p.Sending? ==> (InWindow(DueEventOf(p.claim, k.now)) <==> k.point.current.earliestAt <= k.now))
            && (Enabled(s, Reread(w)) ==>
                  var p := Apply(s, Reread(w)).workers[w].point;
                  p.Sending? ==> (InWindow(DueEventOf(p.claim, k.now)) <==> s.table[k.point.id].earliestAt <= k.now))
  {
    assert WorkerInv(s, s.workers[w]);
    var k := s.workers[w];
    if k.point.Holding? && context.Valid() {
      ProposedAdvances(k.point.current, context, k.now);
    }
  }

  function Open(quietUntil: Option<int>): Revalidation {
    Revalidation(1, 0, true, true, false, true, quietUntil)
  }

  /** One worker postpones an opportunity between the other's due query and its read. */
  function Overlap(o: Opportunity, now: int, quiet: int): seq<Action> {
    [Schedule(o), Query(0, now, [o.id]), Query(1, now, [o.id]), Load(1), Decide(1, Open(Some(quiet))),
      Load(0), Decide(0, Open(None)), Deliver(0)]
  }

  lemma OverlapSetUp(o: Opportunity, now: int)
    requires Regular(o) && Fresh(o) && o.earliestAt <= now
    ensures var due := Worker(Between, [o.id], now);
            Run(Init, [Schedule(o), Query(0, now, [o.id]), Query(1, now, [o.id])]) ==
            Some(System(map[o.id := RowOf(o)], map[0 := due, 1 := due], []))
  {
    var acts := [Schedule(o), Query(0, now, [o.id]), Query(1, now, [o.id])];
    ConstructedIsRegular(o);
    var s1 := Apply(Init, acts[0]);
    assert s1.table == map[o.id := RowOf(o)];
    var s2 := Apply(s1, acts[1]);
    var s3 := Apply(s2, acts[2]);
    assert acts[1..][1..] == acts[2..] && acts[2..][1..] == [];
    assert Run(Init, acts) == Run(s1, acts[1..]) == Run(s2, acts[2..]) == Some(s3);
  }

  lemma OverlapPostpones(o: Opportunity, now: int, quiet: int)
    requires Regular(o) && Fresh(o) && o.earliestAt <= now < quiet < o.id.expiresAt
    ensures var due := Worker(Between, [o.id], now);
            var postponed := o.(sceneVersion := 1, relationshipVersion := 0, earliestAt := quiet);
            Run(System(map[o.id := RowOf(o)], map[0 := due, 1 := due], []), [Load(1), Decide(1, Open(Some(quiet)))]) ==
            Some(System(map[o.id := RowOf(postponed)], map[0 := due, 1 := Worker(Between, [], now)], []))
  {
    var due := Worker(Between, [o.id], now);
    var acts := [Load(1), Decide(1, Open(Some(quiet)))];
    var s := System(map[o.id := RowOf(o)], map[0 := due, 1 := due], []);
    var s1 := Apply(s, acts[0]);
    assert s1.workers[1] == Worker(Holding(o), [], now);
    var s2 := Apply(s1, acts[1]);
    assert acts[1..][1..] == [];
    assert Run(s, acts) == Run(s1, acts[1..]) == Some(s2);
    var postponed := o.(sceneVersion := 1, relationshipVersion := 0, earliestAt := quiet);
    assert Proposed(o, Open(Some(quiet)), now) == postponed;
    assert s2.table == map[o.id := RowOf(postponed)];
    assert s2.workers == map[0 := due, 1 := Worker(Between, [], now)];
  }

  lemma OverlapEmits(o: Opportunity, now: int, workers: map<nat, Worker>)
    requires Regular(o) && Fresh(o) && now < o.id.expiresAt
    requires 0 in workers && workers[0] == Worker(Between, [o.id], now)
    ensures var r := Run(System(map[o.id := RowOf(o)], workers, []), [Load(0), Decide(0, Open(None)), Deliver(0)]);
            r.Some? && |r.value.sink| == 1 && r.value.sink[0].payload.earliestAt == o.earliestAt && r.value.sink[0].occurredAt == now
  {
    var acts := [Load(0), Decide(0, Open(None)), Deliver(0)];
    var s := System(map[o.id := RowOf(o)], workers, []);
    var s1 := Apply(s, acts[0]);
    assert s1.workers[0] == Worker(Holding(o), [], now);
    var s2 := Apply(s1, acts[1]);
    var claim := Claimed(o.(sceneVersion := 1, relationshipVersion := 0));
    assert s2.workers[0] == Worker(Sending(claim), [], now);
    var s3 := Apply(s2, acts[2]);
    assert s3.sink == [DueEventOf(claim, now)];
    assert DueEventOf(claim, now).occurredAt == now && DueEventOf(claim, now).payload.earliestAt == o.earliestAt;
    assert acts[1..][1..] == acts[2..] && acts[2..][1..] == [];
    assert Run(s, acts) == Run(s1, acts[1..]) == Run(s2, acts[2..]) == Some(s3);
  }

  lemma {:induction false} RunConcat(s: System, before: seq<Action>, after: seq<Action>)
    requires Run(s, before).Some?
    ensures Run(s, before + after) == Run(Run(s, before).value, after)
    decreases |before|
  {
    if before == [] {
      assert before + after == after;
    } else {
      assert (before + after)[1..] == before[1..] + after;
      RunConcat(Apply(s, before[0]), before[1..], after);
    }
  }

  /** So overlapping workers do emit early, for every opportunity that can be postponed. */
  lemma OverlapEmitsEarly(o: Opportunity, now: int, quiet: int)
    requires Regular(o) && Fresh(o) && o.earliestAt <= now < quiet < o.id.expiresAt
    ensures var r := Run(Init, Overlap(o, now, quiet));
            r.Some? && |r.value.sink| == 1 && !InWindow(r.value.sink[0])
  {
    OverlapSetUp(o, now);
    OverlapPostpones(o, now, quiet);
    OverlapEmits(o.(sceneVersion := 1, relationshipVersion := 0, earliestAt := quiet), now,
                 map[0 := Worker(Between, [o.id], now), 1 := Worker(Between, [], now)]);
    var a := [Schedule(o), Query(0, now, [o.id]), Query(1, now, [o.id])];
    var b := [Load(1), Decide(1, Open(Some(quiet)))];
    var c := [Load(0), Decide(0, Open(None)), Deliver(0)];
    assert Overlap(o, now, quiet) == a + (b + c);
    RunConcat(Init, a, b + c);
    RunConcat(Run(Init, a).value, b, c);
  }

  // ---------------------------------------------------------------- in-place scheduler

  datatype Outcome = Done(opportunity: Opportunity) | Rejected | Unknown

  class AutonomousOpportunityScheduler {
    var rows: Table
    var sink: seq<DueEvent>

    constructor ()
      ensures rows == map[] && sink == []
    {
      rows, sink := map[], [];
    }

    method Schedule(spec: Opportunity, now: int) returns (r: Outcome)
      modifies this`rows
      ensures r.Done? <==> Enabled(Init, Action.Schedule(spec)) && now >= 0
      ensures r.Done? ==> spec.status.Scheduled? && spec.attempts == 0 && spec.followups == 0 && spec.lastEvent.None?
      ensures r.Done? ==> rows == Inserted(old(rows), Constructed(spec).value)
      ensures r.Done? && Constructed(spec).value.id in old(rows) ==>
                rows == old(rows) && r.opportunity == rows[Constructed(spec).value.id].state
      ensures r.Done? && Constructed(spec).value.id !in old(rows) ==>
                && r.opportunity == Constructed(spec).value
                && rows == old(rows)[r.opportunity.id := Row(Scheduled, r.opportunity.earliestAt, r.opportunity)]
      ensures !r.Done? ==> r.Rejected? && rows == old(rows)
    {
      var o := Constructed(spec);
      if o.None? || now < 0 || !o.value.status.Scheduled? || o.value.attempts != 0 || o.value.followups != 0 || o.value.lastEvent.Some? {
        return Rejected;
      }
      if o.value.id !in rows {
        rows := rows[o.value.id := RowOf(o.value)];
      }
      return Done(rows[o.value.id].state);
    }

    method Persist(o: Opportunity, expected: Opportunity) returns (changed: bool)
      requires o.id == expected.id
      modifies this`rows
      ensures changed <==> expected.id in old(rows) && old(rows)[expected.id].state == expected
      ensures rows == if changed then old(rows)[o.id := Row(o.status, o.earliestAt, o)] else old(rows)
      ensures rows == Swapped(old(rows), o, expected)
    {
      changed := o.id in rows && rows[o.id].state == expected;
      if changed {
        rows := rows[o.id := Row(o.status, o.earliestAt, o)];
      }
    }

    method Claim(o: Opportunity, expected: Opportunity) returns (r: Opportunity)
      requires o.id == expected.id && o.id in rows
      modifies this`rows
      ensures rows == Swapped(old(rows), Claimed(o), expected)
      ensures r == if Matches(old(rows), expected) then Claimed(o) else old(rows)[o.id].state
      ensures var n := Claimed(o);
              && n == o.(attempts := n.attempts, status := n.status, lastEvent := n.lastEvent)
              && if o.attempts < o.id.maxAttempts then
                   n.status.Emitting? && n.attempts == o.attempts + 1 && n.lastEvent == Some(EventId(o.id, n.attempts))
                 else n.status.Expired? && n.attempts == o.attempts && n.lastEvent == o.lastEvent
    {
      if o.attempts >= o.id.maxAttempts {
        var _ := Persist(o.(status := Expired), expected);
        return rows[o.id].state;
      }
      var attempt := o.attempts + 1;
      var claimed := o.(attempts := attempt, status := Emitting, lastEvent := Some(EventId(o.id, attempt)));
      var changed := Persist(claimed, expected);
      return if changed then claimed else rows[o.id].state;
    }

    method ScheduleFollowUp(id: Identity, earliestAt: int, now: int) returns (r: Outcome)
      requires id in rows ==> rows[id].state.id == id
      modifies this`rows
      ensures r.Unknown? <==> id !in old(rows)
      ensures r.Done? <==> Enabled(System(old(rows), map[], []), ReadFollowUp(0, id, earliestAt, now))
      ensures r.Done? ==>
                var o := old(rows)[id].state;
                && o.status.Emitted? && o.attempts < o.id.maxAttempts && o.followups < 1 && now <= earliestAt < o.id.expiresAt
                && r.opportunity == o.(earliestAt := earliestAt, followups := o.followups + 1, status := Scheduled)
      ensures r.Done? ==>
                && r.opportunity == FollowedUp(old(rows)[id].state, earliestAt)
                && rows == Swapped(old(rows), r.opportunity, old(rows)[id].state)
      ensures !r.Done? ==> rows == old(rows)
    {
      if id !in rows {
        return Unknown;
      }
      var current := rows[id].state;
      if !current.status.Emitted? || current.attempts >= current.id.maxAttempts
         || current.followups >= MAX_AUTONOMOUS_FOLLOWUPS || earliestAt < now || earliestAt >= current.id.expiresAt
      {
        return Rejected;
      }
      var updated := current.(earliestAt := earliestAt, followups := current.followups + 1, status := Scheduled);
      if Constructed(updated).None? {
        return Rejected;
      }
      var _ := Persist(updated, current);
      return Done(updated);
    }

    /** One pass of the due loop that nothing overtakes; it returns what it emitted. */
    method ProcessDue(id: Identity, now: int, context: Revalidation) returns (emitted: Option<Opportunity>)
      requires id in rows && rows[id].state.id == id && Accounted(rows[id].state)
      requires id.createdEarliestAt <= now && context.Valid()
      requires rows[id].state.status.Scheduled? || rows[id].state.status.Emitting?
      modifies this
      ensures rows == old(rows)[id := RowOf(After(old(rows)[id].state, context, now))]
      ensures sink == old(sink) + Emission(old(rows)[id].state, context, now)
      ensures emitted == if Proceeds(old(rows)[id].state, context, now) then Some(rows[id].state) else None
      ensures PassMeans(old(rows)[id].state, context, now, rows[id].state, sink[|old(sink)|..])
    {
      var current := rows[id].state;
      ProposedAdvances(current, context, now);
      AfterMeans(current, context, now);
      if current.id.expiresAt <= now {
        var _ := Persist(current.(status := Expired), current);
        return None;
      }
      var o := current.(sceneVersion := context.sceneVersion, relationshipVersion := context.relationshipVersion);
      if context.QuietAfter(now) {
        if context.quietUntil.value >= o.id.expiresAt {
          var _ := Persist(o.(status := Expired), current);
        } else {
          var _ := Persist(o.(earliestAt := context.quietUntil.value), current);
        }
        return None;
      }
      if !context.AllGatesAllow() {
        var _ := Persist(o, current);
        return None;
      }
      if o.status.Scheduled? {
        o := Claim(o, current);
      } else {
        var _ := Persist(o, current);
      }
      assert o == Proposed(current, context, now);
      sink := sink + [DueEventOf(o, now)];
      var completed := o.(status := Emitted);
      var _ := Persist(completed, o);
      return Some(completed);
    }

    /** The due query: earliest first; opportunities of one time come in some order. */
    method DueIds(now: int) returns (due: seq<Identity>)
      ensures IsDueOrder(due, rows, now)
      ensures forall id :: id in due <==> id in rows && rows[id].status in {Scheduled, Emitting} && rows[id].earliestAt <= now
    {
      due := [];
      var todo := set id | id in rows && IsDue(rows, id, now);
      while todo != {}
        invariant forall id :: id in due || id in todo <==> IsDue(rows, id, now)
        invariant forall id :: id in due || id in todo ==> id in rows
        invariant NoRepeats(due) && forall id :: id in due ==> id !in todo
        invariant forall i, j :: 0 <= i < j < |due| ==> due[i] in rows && due[j] in rows && rows[due[i]].earliestAt <= rows[due[j]].earliestAt
        invariant forall id, j :: id in todo && 0 <= j < |due| ==> due[j] in rows && rows[due[j]].earliestAt <= rows[id].earliestAt
        decreases todo
      {
        ghost var first := EarliestDue(rows, todo);
        var id :| id in todo && forall other :: other in todo ==> rows[id].earliestAt <= rows[other].earliestAt;
        todo := todo - {id};
        due := due + [id];
      }
    }

    /** The due loop of one worker that nothing overtakes.  None stands for the ValueError of a negative time. */
    method RunDue(now: int, revalidate: Opportunity -> Revalidation)
      returns (emitted: Option<seq<Opportunity>>, ghost due: seq<Identity>)
      requires TableInv(rows) && forall o :: revalidate(o).Valid()
      modifies this
      ensures emitted.None? <==> now < 0
      ensures emitted.None? ==> rows == old(rows) && sink == old(sink)
      ensures emitted.Some? ==> IsDueOrder(due, old(rows), now)
      ensures emitted.Some? ==> rows == Processed(old(rows), due, revalidate, now)
      ensures emitted.Some? ==> sink == old(sink) + Emissions(old(rows), due, revalidate, now)
      ensures emitted.Some? ==> emitted.value == EmittedBy(old(rows), due, revalidate, now)
    {
      due := [];
      if now < 0 {
        return None, due;
      }
      var ids := DueIds(now);
      due := ids;
      var done := ProcessAll(ids, now, revalidate);
      emitted := Some(done);
    }

    method ProcessAll(due: seq<Identity>, now: int, revalidate: Opportunity -> Revalidation) returns (emitted: seq<Opportunity>)
      requires TableInv(rows) && (forall o :: revalidate(o).Valid()) && NoRepeats(due) && forall id :: id in due ==> IsDue(rows, id, now)
      modifies this
      ensures rows == Processed(old(rows), due, revalidate, now)
      ensures sink == old(sink) + Emissions(old(rows), due, revalidate, now)
      ensures emitted == EmittedBy(old(rows), due, revalidate, now)
    {
      emitted := [];
      for i := 0 to |due|
        invariant rows == Processed(old(rows), due[..i], revalidate, now)
        invariant sink == old(sink) + Emissions(old(rows), due[..i], revalidate, now)
        invariant emitted == EmittedBy(old(rows), due[..i], revalidate, now)
      {
        assert due[i] in due;
        NextPass(old(rows), due, i, revalidate, now);
        var one := ProcessDue(due[i], now, revalidate(rows[due[i]].state));
        emitted := emitted + if one.Some? then [one.value] else [];
      }
      assert due[..|due|] == due;
    }
  }

  /** The next pass of an undisturbed loop finds its row as the query saw it. */
  lemma NextPass(rows: Table, due: seq<Identity>, i: nat, revalidate: Opportunity -> Revalidation, now: int)
    requires TableInv(rows) && NoRepeats(due) && i < |due| && IsDue(rows, due[i], now)
    ensures var id, o, before := due[i], rows[due[i]].state, Processed(rows, due[..i], revalidate, now);
            && id in before && before[id] == rows[id] && o.id == id && Accounted(o) && id.createdEarliestAt <= now
            && (o.status.Scheduled? || o.status.Emitting?)
            && Processed(rows, due[..i + 1], revalidate, now) == before[id := RowOf(After(o, revalidate(o), now))]
            && Emissions(rows, due[..i + 1], revalidate, now) == Emissions(rows, due[..i], revalidate, now) + Emission(o, revalidate(o), now)
            && EmittedBy(rows, due[..i + 1], revalidate, now) == EmittedBy(rows, due[..i], revalidate, now)
               + if Proceeds(o, revalidate(o), now) then [After(o, revalidate(o), now)] else []
  {
    assert due[..i + 1][..i] == due[..i];
    ProcessedRows(rows, due[..i], revalidate, now, due[i]);
  }

  lemma {:induction false} EarliestDue(rows: Table, todo: set<Identity>) returns (first: Identity)
    requires todo != {} && forall id :: id in todo ==> id in rows
    ensures first in todo && forall other :: other in todo ==> rows[first].earliestAt <= rows[other].earliestAt
  {
    first :| first in todo;
    if todo != {first} {
      var next := EarliestDue(rows, todo - {first});
      first := if rows[first].earliestAt <= rows[next].earliestAt then first else next;
    }
  }

  /** All due ids, each once, by earliest time. */
  ghost predicate IsDueOrder(due: seq<Identity>, rows: Table, now: int) {
    && NoRepeats(due) && (forall id :: id in due <==> IsDue(rows, id, now))
    && forall i, j :: 0 <= i < j < |due| ==> due[i] in rows && due[j] in rows && rows[due[i]].earliestAt <= rows[due[j]].earliestAt
  }

  /** One undisturbed pass over a due record: emitted if the gates allow it, else as proposed. */
  function After(current: Opportunity, context: Revalidation, now: int): Opportunity {
    var o := Proposed(current, context, now);
    if Proceeds(current, context, now) then o.(status := Emitted) else o
  }

  /** The event of an undisturbed pass, if its gates allow one. */
  function Emission(current: Opportunity, context: Revalidation, now: int): seq<DueEvent> {
    var o := Proposed(current, context, now);
    if Proceeds(current, context, now) && o.lastEvent.Some? && o.id.sources != [] then [DueEventOf(o, now)] else []
  }

  /** What a pass makes of a due record, and the events it hands to the sink. */
  ghost predicate PassMeans(o: Opportunity, context: Revalidation, now: int, n: Opportunity, events: seq<DueEvent>) {
    if now >= o.id.expiresAt then n == o.(status := Expired) && events == []
    else
      && n == o.(sceneVersion := context.sceneVersion, relationshipVersion := context.relationshipVersion, status := n.status,
                 earliestAt := n.earliestAt, attempts := n.attempts, lastEvent := n.lastEvent)
      && if MayEmit(o, context, now) then
           && n.status.Emitted? && n.earliestAt == o.earliestAt && n.attempts == o.followups + 1
           && n.lastEvent == Some(EventId(o.id, n.attempts))
           && |events| == 1 && events[0].id == EventId(o.id, n.attempts) && events[0].occurredAt == now
           && events[0].payload.sceneVersion == context.sceneVersion
           && events[0].payload.relationshipVersion == context.relationshipVersion
         else
           && events == [] && n.attempts == o.attempts && n.lastEvent == o.lastEvent
           && if context.quietUntil.Some? && context.quietUntil.value > now then
                if context.quietUntil.value >= o.id.expiresAt then n.status.Expired? && n.earliestAt == o.earliestAt
                else n.status == o.status && n.earliestAt == context.quietUntil.value
              else n.status == o.status && n.earliestAt == o.earliestAt
  }

  lemma AfterMeans(o: Opportunity, context: Revalidation, now: int)
    requires Accounted(o) && (o.status.Scheduled? || o.status.Emitting?)
    ensures PassMeans(o, context, now, After(o, context, now), Emission(o, context, now))
  {
  }

  function Processed(rows: Table, due: seq<Identity>, revalidate: Opportunity -> Revalidation, now: int): Table {
    if due == [] then rows
    else
      var before := Processed(rows, due[..|due| - 1], revalidate, now);
      var id := due[|due| - 1];
      if id in before then before[id := RowOf(After(before[id].state, revalidate(before[id].state), now))] else before
  }

  function Emissions(rows: Table, due: seq<Identity>, revalidate: Opportunity -> Revalidation, now: int): seq<DueEvent> {
    if due == [] then []
    else
      var before := Emissions(rows, due[..|due| - 1], revalidate, now);
      var id := due[|due| - 1];
      if id in rows then before + Emission(rows[id].state, revalidate(rows[id].state), now) else before
  }

  /** Each record that the loop returns is emitted, and its event is the one at the same place of the sink's addition. */
  lemma {:induction false} EmittedTogether(rows: Table, due: seq<Identity>, revalidate: Opportunity -> Revalidation, now: int)
    requires TableInv(rows) && (forall o :: revalidate(o).Valid()) && forall id :: id in due ==> IsDue(rows, id, now)
    ensures var records, events := EmittedBy(rows, due, revalidate, now), Emissions(rows, due, revalidate, now);
            && |records| == |events|
            && forall k :: 0 <= k < |events| ==>
                 records[k].status.Emitted? && records[k].lastEvent == Some(events[k].id) && records[k].id in due && events[k].occurredAt == now
  {
    if due != [] {
      var front, id := due[..|due| - 1], due[|due| - 1];
      assert due == front + [id] && id in due && forall x :: x in front ==> x in due;
      EmittedTogether(rows, front, revalidate, now);
      AfterMeans(rows[id].state, revalidate(rows[id].state), now);
      ProceedsIff(rows[id].state, revalidate(rows[id].state), now);
    }
  }

  lemma ProceedsIff(o: Opportunity, context: Revalidation, now: int)
    ensures Proceeds(o, context, now) <==> MayEmit(o, context, now)
  {
  }

  /** The records of the due rows that an undisturbed loop emits, in order. */
  function EmittedBy(rows: Table, due: seq<Identity>, revalidate: Opportunity -> Revalidation, now: int): seq<Opportunity> {
    if due == [] then []
    else
      var before := EmittedBy(rows, due[..|due| - 1], revalidate, now);
      var id := due[|due| - 1];
      if id in rows && Proceeds(rows[id].state, revalidate(rows[id].state), now) then
        before + [After(rows[id].state, revalidate(rows[id].state), now)]
      else before
  }

  /** An undisturbed due loop handles every due row once, on its own, and no other row at all. */
  lemma {:induction false} ProcessedRows(
      rows: Table, due: seq<Identity>, revalidate: Opportunity -> Revalidation, now: int, id: Identity)
    requires NoRepeats(due)
    ensures Processed(rows, due, revalidate, now).Keys == rows.Keys
    ensures id in rows ==>
              Processed(rows, due, revalidate, now)[id] ==
              if id in due then RowOf(After(rows[id].state, revalidate(rows[id].state), now)) else rows[id]
  {
    if due != [] {
      var front, last := due[..|due| - 1], due[|due| - 1];
      assert due == front + [last];
      ProcessedRows(rows, front, revalidate, now, id);
    }
  }
}
