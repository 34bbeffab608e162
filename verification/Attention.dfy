/**
 * Attention scheduling: debounced ambient windows, one per group, with bounded
 * most-recent-unique lists and a message rate over the last minute; and the admission of the
 * temporal events the autonomous scheduler emits.
 */
module Attention {
  import opened Basics
  import Autonomy

  const DECISION_BUDGET_SECONDS := 8
  const WINDOW_MAX_SECONDS := DECISION_BUDGET_SECONDS
  const MAX_FOCUS_EVENTS := 12
  const MAX_FOCUS_TOPICS := 4
  const MAX_AUDIENCES := 8
  const RATE_SECONDS := 60

  // ---------------------------------------------------------------- bounded recent lists

  function LastK(values: seq<string>, limit: nat): seq<string> {
    if |values| <= limit then values else values[|values| - limit..]
  }

  function Without(values: seq<string>, value: string): seq<string> {
    if values == [] then []
    else if values[0] == value then Without(values[1..], value)
    else [values[0]] + Without(values[1..], value)
  }

  /** The empty text stands for None as well: both are falsy. */
  function AppendRecentUnique(values: seq<string>, value: string, limit: nat): seq<string> {
    if value == "" then LastK(values, limit) else LastK(Without(values, value) + [value], limit)
  }

  /** The unbounded reference: every value once, at the place of its last occurrence. */
  function KeepLast(values: seq<string>): seq<string> {
    if values == [] then []
    else if values[0] in values[1..] then KeepLast(values[1..])
    else [values[0]] + KeepLast(values[1..])
  }

  lemma NoRepeatsCons(x: string, values: seq<string>)
    ensures NoRepeats([x] + values) <==> x !in values && NoRepeats(values)
  {
    var all := [x] + values;
    assert forall i :: 0 <= i < |values| ==> all[i + 1] == values[i];
    if NoRepeats(all) {
      forall i, j | 0 <= i < j < |values| ensures values[i] != values[j] {
        assert all[i + 1] != all[j + 1];
      }
      forall i | 0 <= i < |values| ensures values[i] != x {
        assert all[0] != all[i + 1];
      }
    }
  }

  lemma {:induction false} WithoutOf(values: seq<string>, value: string)
    ensures value !in Without(values, value)
    ensures forall v :: v in Without(values, value) <==> v in values && v != value
    ensures value !in values ==> Without(values, value) == values
    ensures NoRepeats(values) ==> NoRepeats(Without(values, value))
    ensures NoRepeats(values) && value in values ==> |Without(values, value)| == |values| - 1
  {
    if values != [] {
      WithoutOf(values[1..], value);
      assert values == [values[0]] + values[1..];
      NoRepeatsCons(values[0], values[1..]);
      NoRepeatsCons(values[0], Without(values[1..], value));
    }
  }

  lemma {:induction false} WithoutConcat(a: seq<string>, b: seq<string>, value: string)
    ensures Without(a + b, value) == Without(a, value) + Without(b, value)
  {
    if a == [] {
      assert a + b == b;
    } else {
      assert (a + b)[1..] == a[1..] + b;
      WithoutConcat(a[1..], b, value);
    }
  }

  lemma {:induction false} KeepLastOf(values: seq<string>)
    ensures NoRepeats(KeepLast(values))
    ensures forall v :: v in KeepLast(values) <==> v in values
    ensures NoRepeats(values) ==> KeepLast(values) == values
  {
    if values != [] {
      KeepLastOf(values[1..]);
      assert values == [values[0]] + values[1..];
      NoRepeatsCons(values[0], values[1..]);
      NoRepeatsCons(values[0], KeepLast(values[1..]));
    }
  }

  lemma {:induction false} KeepLastAppend(values: seq<string>, value: string)
    ensures KeepLast(values + [value]) == Without(KeepLast(values), value) + [value]
  {
    if values == [] {
      assert [] + [value] == [value];
    } else {
      var first, rest := values[0], values[1..];
      assert (values + [value])[1..] == rest + [value];
      assert (values + [value])[0] == first;
      KeepLastAppend(rest, value);
      if first !in rest {
        WithoutCons(first, KeepLast(rest), value);
      }
    }
  }

  lemma WithoutCons(x: string, values: seq<string>, value: string)
    ensures Without([x] + values, value) == if x == value then Without(values, value) else [x] + Without(values, value)
  {
    assert ([x] + values)[1..] == values;
  }

  lemma {:induction false} NoRepeatsConcat(a: seq<string>, b: seq<string>)
    requires NoRepeats(a + b)
    ensures NoRepeats(a) && NoRepeats(b) && forall v :: v in a ==> v !in b
  {
    if a == [] {
      assert a + b == b;
    } else {
      assert a + b == [a[0]] + (a[1..] + b) && a == [a[0]] + a[1..];
      NoRepeatsCons(a[0], a[1..] + b);
      NoRepeatsConcat(a[1..], b);
      NoRepeatsCons(a[0], a[1..]);
    }
  }

  /** Dropping the oldest entries before a value is refreshed loses nothing of the last `limit`. */
  lemma LastKOfRefreshed(values: seq<string>, value: string, limit: nat)
    requires NoRepeats(values) && limit > 0
    ensures LastK(Without(LastK(values, limit), value) + [value], limit) == LastK(Without(values, value) + [value], limit)
  {
    if |values| > limit {
      var head, kept := values[..|values| - limit], LastK(values, limit);
      assert values == head + kept;
      NoRepeatsConcat(head, kept);
      WithoutConcat(head, kept, value);
      WithoutOf(kept, value);
      WithoutOf(head, value);
      LastKOfConcat(Without(head, value), Without(kept, value) + [value], limit);
      assert Without(head, value) + (Without(kept, value) + [value]) == Without(values, value) + [value];
    }
  }

  lemma LastKOfConcat(a: seq<string>, b: seq<string>, limit: nat)
    ensures |b| >= limit ==> LastK(a + b, limit) == LastK(b, limit)
  {
  }

  function Appended(values: seq<string>, value: string): seq<string> {
    if value == "" then values else values + [value]
  }

  /** One step of the bounded list follows the unbounded one. */
  lemma RecentFollowsKeepLast(values: seq<string>, value: string, limit: nat)
    requires limit > 0
    ensures AppendRecentUnique(LastK(KeepLast(values), limit), value, limit) ==
            LastK(KeepLast(Appended(values, value)), limit)
  {
    if value != "" {
      KeepLastAppend(values, value);
      KeepLastOf(values);
      LastKOfRefreshed(KeepLast(values), value, limit);
    }
  }

  function Folded(values: seq<string>, limit: nat): seq<string> {
    if values == [] then [] else AppendRecentUnique(Folded(values[..|values| - 1], limit), values[|values| - 1], limit)
  }

  function NonEmpty(values: seq<string>): seq<string> {
    if values == [] then [] else Appended(NonEmpty(values[..|values| - 1]), values[|values| - 1])
  }

  /**
   * However long the history, the bounded list is the last `limit` entries of the
   * keep-last-occurrence deduplication of all of it.
   */
  lemma {:induction false} BoundedListIsExact(values: seq<string>, limit: nat)
    requires limit > 0
    ensures Folded(values, limit) == LastK(KeepLast(NonEmpty(values)), limit)
  {
    if values != [] {
      var front := values[..|values| - 1];
      BoundedListIsExact(front, limit);
      RecentFollowsKeepLast(NonEmpty(front), values[|values| - 1], limit);
    }
  }

  // ---------------------------------------------------------------- message rate

  function PruneFront(times: seq<int>, cutoff: int): seq<int> {
    if times != [] && times[0] < cutoff then PruneFront(times[1..], cutoff) else times
  }

  function Recorded(times: seq<int>, now: int): seq<int> {
    PruneFront(times + [now], now - RATE_SECONDS)
  }

  function Delay(count: nat): int {
    if count <= 3 then 2 else if count <= 12 then 3 else 5
  }

  /** The entries inside a window that ends at `now`. */
  function Since(times: seq<int>, cutoff: int): seq<int> {
    if times == [] then []
    else if times[0] >= cutoff then [times[0]] + Since(times[1..], cutoff)
    else Since(times[1..], cutoff)
  }

  predicate Sorted(times: seq<int>) {
    forall i, j :: 0 <= i < j < |times| ==> times[i] <= times[j]
  }

  lemma {:induction false} PruneFrontIsSince(times: seq<int>, cutoff: int)
    requires Sorted(times)
    ensures PruneFront(times, cutoff) == Since(times, cutoff)
  {
    if times != [] {
      PruneFrontIsSince(times[1..], cutoff);
      if times[0] >= cutoff {
        assert PruneFront(times[1..], cutoff) == times[1..];
      }
    }
  }

  lemma SortedCons(x: int, times: seq<int>)
    ensures Sorted([x] + times) <==> Sorted(times) && forall t :: t in times ==> x <= t
  {
    var all := [x] + times;
    if Sorted(all) {
      forall i, j | 0 <= i < j < |times| ensures times[i] <= times[j] {
        assert all[i + 1] <= all[j + 1];
      }
      forall i | 0 <= i < |times| ensures x <= times[i] {
        assert all[0] <= all[i + 1];
      }
    } else {
      var i, j :| 0 <= i < j < |all| && all[i] > all[j];
      assert all[j] == times[j - 1] && times[j - 1] in times;
      assert i > 0 ==> times[i - 1] > times[j - 1];
    }
  }

  lemma SortedSnoc(times: seq<int>, x: int)
    ensures Sorted(times + [x]) <==> Sorted(times) && forall t :: t in times ==> t <= x
  {
    var all := times + [x];
    if Sorted(all) {
      forall i, j | 0 <= i < j < |times| ensures times[i] <= times[j] {
        assert all[i] <= all[j];
      }
      forall i | 0 <= i < |times| ensures times[i] <= x {
        assert all[i] <= all[|times|];
      }
    } else {
      var i, j :| 0 <= i < j < |all| && all[i] > all[j];
      assert all[i] == times[i] && times[i] in times;
      assert j < |times| ==> times[i] > times[j];
    }
  }

  lemma {:induction false} SinceOf(times: seq<int>, cutoff: int)
    requires Sorted(times)
    ensures Sorted(Since(times, cutoff))
    ensures forall t :: t in Since(times, cutoff) <==> t in times && t >= cutoff
  {
    if times != [] {
      SinceOf(times[1..], cutoff);
      assert times == [times[0]] + times[1..];
      SortedCons(times[0], times[1..]);
      SortedCons(times[0], Since(times[1..], cutoff));
    }
  }

  lemma {:induction false} SinceSince(times: seq<int>, before: int, cutoff: int, now: int)
    requires before <= cutoff
    ensures Since(Since(times, before) + [now], cutoff) == Since(times + [now], cutoff)
  {
    if times == [] {
      assert [] + [now] == [now];
    } else {
      assert (times + [now])[1..] == times[1..] + [now];
      SinceSince(times[1..], before, cutoff, now);
      if times[0] >= before {
        assert ([times[0]] + Since(times[1..], before) + [now])[1..] == Since(times[1..], before) + [now];
      }
    }
  }

  /** Pruning only at the front of the deque still counts exactly the messages of the last minute. */
  lemma RecordedIsExact(times: seq<int>, last: int, now: int)
    requires Sorted(times + [now]) && last <= now
    ensures Recorded(Since(times, last - RATE_SECONDS), now) == Since(times + [now], now - RATE_SECONDS)
  {
    var kept := Since(times, last - RATE_SECONDS);
    SortedSnoc(times, now);
    SinceOf(times, last - RATE_SECONDS);
    SortedSnoc(kept, now);
    PruneFrontIsSince(kept + [now], now - RATE_SECONDS);
    SinceSince(times, last - RATE_SECONDS, now - RATE_SECONDS, now);
  }

  // ---------------------------------------------------------------- events and frames

  /** A payload as received: None is a field of the wrong shape. */
  datatype Temporal = Temporal(
    opportunity: string,
    sources: Option<seq<string>>,
    entryReasons: Option<seq<string>>,
    audience: Option<seq<string>>,
    earliestAt: Option<int>,
    expiresAt: Option<int>,
    attempt: Option<int>,
    followups: Option<int>,
    kind: string)

  datatype Content =
    | Message(addressesOther: bool)
    | Urgent                         // poke, safety boundary, capability result
    | CommitmentDue(dueAt: int)
    | OpportunityDue(temporal: Temporal)
    | OtherContent

  /** `topic` is the topic the world resolves for the event, or the empty text. */
  datatype Event = Event(
    id: string, group: string, actor: string, topic: string, socialEligible: bool,
    mentionsBot: bool, replyToBot: bool, directAddress: bool, content: Content)

  datatype Lease = Lease(target: string, expiresAt: int, remainingTurns: int)

  datatype World = World(group: string, sceneVersion: int, lease: Option<Lease>)

  datatype Persona = Persona(stateVersion: int, configVersion: int)

  datatype Trigger = AMBIENT | FAST | CONTINUATION | TEMPORAL

  datatype Frame = Frame(
    group: string,
    sceneVersion: int,
    trigger: Trigger,
    topics: seq<string>,
    events: seq<string>,
    audiences: seq<string>,
    deadline: int,
    persona: Persona)

  datatype Window = Window(
    group: string,
    sceneVersion: int,
    topics: seq<string>,
    events: seq<string>,
    audiences: seq<string>,
    startedAt: int,
    deadline: int,
    persona: Persona)

  function Singleton(value: string): seq<string> {
    if value == "" then [] else [value]
  }

  function DirectFrame(e: Event, w: World, p: Persona, trigger: Trigger, now: int): Frame {
    Frame(w.group, w.sceneVersion, trigger, Singleton(e.topic), [e.id], Singleton(e.actor), now, p)
  }

  function AmbientFrame(w: Window): Frame {
    Frame(w.group, w.sceneVersion, AMBIENT, w.topics, w.events, w.audiences, w.deadline, w.persona)
  }

  // ---------------------------------------------------------------- temporal opportunities

  function PayloadTexts(value: Option<seq<string>>): seq<string> {
    if value.None? || "" in value.value then [] else Distinct(value.value)
  }

  function PayloadInt(value: Option<int>): Option<int> {
    if value.Some? && value.value >= 0 then value else None
  }

  predicate Admissible(t: Temporal, now: int) {
    var sources, reasons := PayloadTexts(t.sources), PayloadTexts(t.entryReasons);
    && sources != [] && reasons != [] && (forall r :: r in reasons ==> r in sources)
    && PayloadTexts(t.audience) != []
    && (forall v :: v in sources ==> !Autonomy.Recursive(v))
    && t.kind in Autonomy.ALLOWED_OPPORTUNITY_KINDS
    && PayloadInt(t.earliestAt).Some? && PayloadInt(t.expiresAt).Some?
    && PayloadInt(t.attempt).Some? && PayloadInt(t.followups).Some?
    && t.earliestAt.value <= now < t.expiresAt.value
    && t.attempt.value in {1, 2} && t.followups.value in {0, 1}
  }

  /** Given, not empty, and without an empty text. */
  predicate TextsGiven(value: Option<seq<string>>) {
    value.Some? && value.value != [] && "" !in value.value
  }

  /** Which payloads pass the guards, in terms of the fields as received. */
  lemma AdmissibleIff(t: Temporal, now: int)
    ensures Admissible(t, now) <==>
              && TextsGiven(t.sources) && TextsGiven(t.entryReasons) && TextsGiven(t.audience)
              && (forall r :: r in t.entryReasons.value ==> r in t.sources.value)
              && (forall v :: v in t.sources.value ==> !("autonomy:" <= v))
              && t.kind in {"commitment", "task", "member-event", "group-ritual", "delayed-scene", "self-open-loop"}
              && t.earliestAt.Some? && t.expiresAt.Some? && 0 <= t.earliestAt.value <= now < t.expiresAt.value
              && t.attempt in {Some(1), Some(2)} && t.followups in {Some(0), Some(1)}
  {
    PayloadTextsOf(t.sources);
    PayloadTextsOf(t.entryReasons);
    PayloadTextsOf(t.audience);
  }

  lemma PayloadTextsOf(value: Option<seq<string>>)
    ensures PayloadTexts(value) != [] <==> TextsGiven(value)
    ensures TextsGiven(value) ==> PayloadTexts(value) == Distinct(value.value)
    ensures TextsGiven(value) ==> forall v :: v in PayloadTexts(value) <==> v in value.value
  {
    if value.Some? {
      SameValues(value.value);
    }
  }

  function AppendUnique(values: seq<string>, value: string): seq<string> {
    if value == "" || value in values then values else values + [value]
  }

  function AutonomousFrames(e: Event, w: World, p: Persona, now: int): seq<Frame>
    requires e.content.OpportunityDue?
  {
    var t := e.content.temporal;
    if !Admissible(t, now) then []
    else
      [Frame(w.group, w.sceneVersion, TEMPORAL, Singleton(if e.topic != "" then e.topic else t.opportunity),
             AppendUnique(PayloadTexts(t.entryReasons), e.id), PayloadTexts(t.audience), now, p)]
  }

  /** The scheduler's event as the attention side receives it; ids are texts there. */
  function Envelope(e: Autonomy.DueEvent, eventId: string, opportunityId: string, topic: string): Event {
    var p := e.payload;
    Event(eventId, e.group, "", topic, true, false, false, false,
          OpportunityDue(Temporal(opportunityId, Some(p.sources), Some(p.entryReasons), Some(p.audience), Some(p.earliestAt),
                                  Some(p.expiresAt), Some(p.attempt), Some(p.followups), p.kind)))
  }

  lemma ClaimIsAdmissible(
    o: Autonomy.Opportunity, e: Autonomy.DueEvent, eventId: string, opportunityId: string, topic: string, now: int)
    requires Autonomy.Accounted(o) && o.status.Emitting? && e == Autonomy.DueEventOf(o, e.occurredAt)
    ensures var t := Envelope(e, eventId, opportunityId, topic).content.temporal;
            && (Admissible(t, now) <==> o.earliestAt <= now < o.id.expiresAt)
            && PayloadTexts(t.audience) == o.id.audience && PayloadTexts(t.entryReasons) == o.entryReasons
  {
    DistinctKeepsDistinct(o.id.sources);
    DistinctKeepsDistinct(o.id.audience);
    DistinctKeepsDistinct(o.entryReasons);
  }

  /**
   * Whatever the scheduler emits, in any interleaving, passes every guard but the time
   * window: it yields one TEMPORAL frame with its own audience exactly while it is due, and
   * nothing otherwise.
   */
  lemma EmissionsAreAttendedExactlyWhenDue(
      acts: seq<Autonomy.Action>, e: Autonomy.DueEvent, eventId: string, opportunityId: string, topic: string,
      w: World, p: Persona, now: int)
    requires Autonomy.Run(Autonomy.Init, acts).Some? && e in Autonomy.Run(Autonomy.Init, acts).value.sink
    ensures var frames := AutonomousFrames(Envelope(e, eventId, opportunityId, topic), w, p, now);
            && |frames| == (if e.payload.earliestAt <= now < e.payload.expiresAt then 1 else 0)
            && (frames != [] ==>
                  && frames[0].trigger == TEMPORAL && frames[0].group == w.group
                  && frames[0].audiences == e.payload.audience && e.payload.entryReasons <= frames[0].events)
  {
    var o := ClaimBehind(acts, e);
    ClaimIsAdmissible(o, e, eventId, opportunityId, topic, now);
  }

  /** The claim an event in the sink was made from. */
  lemma ClaimBehind(acts: seq<Autonomy.Action>, e: Autonomy.DueEvent) returns (o: Autonomy.Opportunity)
    requires Autonomy.Run(Autonomy.Init, acts).Some? && e in Autonomy.Run(Autonomy.Init, acts).value.sink
    ensures Autonomy.Accounted(o) && o.status.Emitting? && o.id == e.id.opportunity && e == Autonomy.DueEventOf(o, e.occurredAt)
  {
    Autonomy.RunKeepsInv(Autonomy.Init, acts);
    var table := Autonomy.Run(Autonomy.Init, acts).value.table;
    assert Autonomy.EventInv(table, e);
    o :| Autonomy.Accounted(o) && o.status.Emitting? && o.id == e.id.opportunity && e == Autonomy.DueEventOf(o, e.occurredAt);
  }

  // ---------------------------------------------------------------- one scheduler

  datatype State = State(ambient: map<string, Window>, recent: map<string, seq<int>>)

  datatype Lane = Ignored | Autonomous | Commitment | Direct | Continued | Debounced

  predicate IsFast(e: Event) {
    e.content.Urgent? || e.mentionsBot || e.replyToBot || e.directAddress
  }

  predicate MatchesLease(e: Event, w: World, now: int) {
    && e.content.Message? && w.lease.Some?
    && e.socialEligible && !e.directAddress
    && e.actor == w.lease.value.target && now <= w.lease.value.expiresAt && w.lease.value.remainingTurns > 0
    && !e.content.addressesOther
  }

  function Route(e: Event, w: World, now: int): Lane {
    if !e.socialEligible then Ignored
    else if e.content.OpportunityDue? then Autonomous
    else if e.content.CommitmentDue? then Commitment
    else if IsFast(e) then Direct
    else if MatchesLease(e, w, now) then Continued
    else if e.content.Message? then Debounced
    else Ignored
  }

  function Immediate(e: Event, w: World, p: Persona, now: int): seq<Frame> {
    match Route(e, w, now)
    case Autonomous => AutonomousFrames(e, w, p, now)
    case Commitment => if e.content.dueAt > now then [] else [DirectFrame(e, w, p, TEMPORAL, now)]
    case Direct => [DirectFrame(e, w, p, FAST, now)]
    case Continued => [DirectFrame(e, w, p, CONTINUATION, now)]
    case _ => []
  }

  /** A member who is talking with the bot goes on: the lease is theirs, in force and not used up. */
  predicate HoldsLease(e: Event, w: World, now: int) {
    && w.lease.Some? && w.lease.value.target == e.actor && now <= w.lease.value.expiresAt && w.lease.value.remainingTurns >= 1
    && e.content.Message? && !e.content.addressesOther && !e.directAddress
  }

  /** The frame that is due at once for this very event. */
  predicate IsOwnFrame(f: Frame, e: Event, w: World, p: Persona, trigger: Trigger, now: int) {
    && f.group == w.group && f.sceneVersion == w.sceneVersion && f.persona == p
    && f.trigger == trigger && f.deadline == now && f.events == [e.id]
    && f.topics == (if e.topic == "" then [] else [e.topic]) && f.audiences == if e.actor == "" then [] else [e.actor]
  }

  /** What becomes of an event: which frame it yields at once, if any, and whether it joins the window of its group. */
  ghost predicate Routed(e: Event, w: World, p: Persona, now: int, frames: seq<Frame>, debounced: bool) {
    var calls := e.content.Urgent? || e.mentionsBot || e.replyToBot || e.directAddress;
    if !e.socialEligible then frames == [] && !debounced
    else if e.content.OpportunityDue? then
      && !debounced && |frames| == (if Admissible(e.content.temporal, now) then 1 else 0)
      && (frames != [] ==> IsTemporalFrame(frames[0], e, w, p, now))
    else if e.content.CommitmentDue? then
      && !debounced && |frames| == (if e.content.dueAt <= now then 1 else 0)
      && (frames != [] ==> IsOwnFrame(frames[0], e, w, p, TEMPORAL, now))
    else if calls then !debounced && |frames| == 1 && IsOwnFrame(frames[0], e, w, p, FAST, now)
    else if HoldsLease(e, w, now) then !debounced && |frames| == 1 && IsOwnFrame(frames[0], e, w, p, CONTINUATION, now)
    else frames == [] && (debounced <==> e.content.Message?)
  }

  /** The frame of an opportunity: about its own reasons and audience, and the event itself. */
  predicate IsTemporalFrame(f: Frame, e: Event, w: World, p: Persona, now: int)
    requires e.content.OpportunityDue?
  {
    var t := e.content.temporal;
    && f.group == w.group && f.sceneVersion == w.sceneVersion && f.persona == p && f.trigger == TEMPORAL && f.deadline == now
    && f.topics == (if e.topic != "" then [e.topic] else if t.opportunity != "" then [t.opportunity] else [])
    && t.entryReasons.Some? && t.audience.Some? && f.audiences == Distinct(t.audience.value)
    && var reasons := Distinct(t.entryReasons.value);
       f.events == if e.id == "" || e.id in reasons then reasons else reasons + [e.id]
  }

  lemma RoutingMeans(e: Event, w: World, p: Persona, now: int)
    ensures Routed(e, w, p, now, Immediate(e, w, p, now), Route(e, w, now).Debounced?)
  {
    if e.content.OpportunityDue? {
      PayloadTextsOf(e.content.temporal.audience);
      PayloadTextsOf(e.content.temporal.entryReasons);
    }
  }

  function Times(s: State, g: string): seq<int> {
    if g in s.recent then s.recent[g] else []
  }

  /** A pending window takes on the versions of every event of its group. */
  function Refreshed(s: State, g: string, w: World, p: Persona): State {
    if g in s.ambient then s.(ambient := s.ambient[g := s.ambient[g].(sceneVersion := w.sceneVersion, persona := p)]) else s
  }

  function Opened(e: Event, w: World, p: Persona, now: int, delay: int): Window {
    Window(e.group, w.sceneVersion, Singleton(e.topic), [e.id], Singleton(e.actor), now, now + delay, p)
  }

  function Min(a: int, b: int): int {
    if a <= b then a else b
  }

  function Extended(c: Window, e: Event, w: World, p: Persona, now: int, delay: int): Window {
    Window(c.group, w.sceneVersion,
           AppendRecentUnique(c.topics, e.topic, MAX_FOCUS_TOPICS),
           AppendRecentUnique(c.events, e.id, MAX_FOCUS_EVENTS),
           AppendRecentUnique(c.audiences, e.actor, MAX_AUDIENCES),
           c.startedAt, Min(now + delay, c.startedAt + WINDOW_MAX_SECONDS), p)
  }

  function Debounce(s: State, e: Event, w: World, p: Persona, now: int): State {
    var times := Recorded(Times(s, e.group), now);
    var window := if e.group in s.ambient then Extended(s.ambient[e.group], e, w, p, now, Delay(|times|))
                  else Opened(e, w, p, now, Delay(|times|));
    State(s.ambient[e.group := window], s.recent[e.group := times])
  }

  function Attended(s: State, e: Event, w: World, p: Persona, now: int): State {
    var refreshed := Refreshed(s, e.group, w, p);
    if Route(e, w, now).Debounced? then Debounce(refreshed, e, w, p, now) else refreshed
  }

  predicate Before(a: Window, b: Window) {
    a.deadline < b.deadline || (a.deadline == b.deadline && TextLeq(a.group, b.group))
  }

  function Due(ambient: map<string, Window>, now: int): set<string> {
    set g | g in ambient && ambient[g].deadline <= now
  }

  /** The groups of `due` by deadline, then by group id. */
  ghost predicate IsFlushOrder(order: seq<string>, ambient: map<string, Window>, due: set<string>) {
    && (forall g :: g in order <==> g in due)
    && (forall g :: g in order ==> g in ambient)
    && (forall i, j :: 0 <= i < j < |order| ==> order[i] != order[j] && Before(ambient[order[i]], ambient[order[j]]))
  }

  function FramesOf(order: seq<string>, ambient: map<string, Window>): seq<Frame>
    requires forall g :: g in order ==> g in ambient
  {
    if order == [] then []
    else FramesOf(order[..|order| - 1], ambient) + [AmbientFrame(ambient[order[|order| - 1]])]
  }

  class AttentionScheduler {
    var ambient: map<string, Window>
    var recent: map<string, seq<int>>

    ghost function Contents(): State
      reads this
    {
      State(ambient, recent)
    }

    constructor ()
      ensures Contents() == State(map[], map[])
    {
      ambient, recent := map[], map[];
    }

    /** None stands for the ValueError of a foreign or unprojected world. */
    method OnEvent(e: Event, w: World, p: Persona, now: int) returns (frames: Option<seq<Frame>>)
      modifies this
      ensures frames.None? <==> e.group == "" || e.group != w.group || w.sceneVersion < 1
      ensures frames.None? ==> Contents() == old(Contents())
      ensures frames.Some? ==> frames.value == Immediate(e, w, p, now) && Contents() == Attended(old(Contents()), e, w, p, now)
      ensures frames.Some? ==> Routed(e, w, p, now, frames.value, Route(e, w, now).Debounced?)
      ensures frames.Some? && !Route(e, w, now).Debounced? ==> recent == old(recent) && ambient.Keys == old(ambient).Keys
    {
      RoutingMeans(e, w, p, now);
      if e.group == "" || e.group != w.group || w.sceneVersion < 1 {
        return None;
      }
      if e.group in ambient {
        ambient := ambient[e.group := ambient[e.group].(sceneVersion := w.sceneVersion, persona := p)];
      }
      if !e.socialEligible {
        return Some([]);
      }
      if e.content.OpportunityDue? {
        return Some(AutonomousFrames(e, w, p, now));
      }
      if e.content.CommitmentDue? {
        return Some(if e.content.dueAt > now then [] else [DirectFrame(e, w, p, TEMPORAL, now)]);
      }
      if IsFast(e) {
        return Some([DirectFrame(e, w, p, FAST, now)]);
      }
      if MatchesLease(e, w, now) {
        return Some([DirectFrame(e, w, p, CONTINUATION, now)]);
      }
      if !e.content.Message? {
        return Some([]);
      }
      var delay := RecordMessageTime(e.group, now);
      if e.group !in ambient {
        ambient := ambient[e.group := Opened(e, w, p, now, delay)];
      } else {
        ambient := ambient[e.group := Extended(ambient[e.group], e, w, p, now, delay)];
      }
      return Some([]);
    }

    method RecordMessageTime(g: string, now: int) returns (delay: int)
      modifies this`recent
      ensures recent == old(recent)[g := Recorded(Times(old(Contents()), g), now)]
      ensures delay == Delay(|recent[g]|)
    {
      var times := (if g in recent then recent[g] else []) + [now];
      var cutoff := now - RATE_SECONDS;
      while times != [] && times[0] < cutoff
        invariant PruneFront(times, cutoff) == Recorded(Times(old(Contents()), g), now)
        decreases |times|
      {
        times := times[1..];
      }
      recent := recent[g := times];
      delay := if |times| <= 3 then 2 else if |times| <= 12 then 3 else 5;
    }

    /** The pending windows that are due, earliest deadline first. */
    method SortDue(now: int) returns (order: seq<string>)
      ensures IsFlushOrder(order, ambient, Due(ambient, now))
    {
      var todo := set g | g in ambient && ambient[g].deadline <= now;
      order := [];
      while todo != {}
        invariant todo <= Due(ambient, now)
        invariant IsFlushOrder(order, ambient, Due(ambient, now) - todo)
        invariant forall g, h :: g in order && h in todo ==> Before(ambient[g], ambient[h])
        decreases todo
      {
        EarliestExists(ambient, todo);
        var g :| g in todo && forall h :: h in todo ==> Before(ambient[g], ambient[h]);
        order := order + [g];
        todo := todo - {g};
      }
    }

    method FlushDue(now: int) returns (frames: seq<Frame>, ghost order: seq<string>)
      modifies this`ambient
      ensures IsFlushOrder(order, old(ambient), Due(old(ambient), now))
      ensures frames == FramesOf(order, old(ambient))
      ensures ambient == old(ambient) - Due(old(ambient), now)
    {
      var due := SortDue(now);
      order := due;
      frames := [];
      for i := 0 to |due|
        invariant frames == FramesOf(due[..i], ambient)
      {
        assert due[..i + 1][..i] == due[..i];
        frames := frames + [AmbientFrame(ambient[due[i]])];
      }
      assert due[..|due|] == due;
      for i := 0 to |due|
        invariant ambient == old(ambient) - set g | g in due[..i]
      {
        assert due[..i + 1] == due[..i] + [due[i]];
        ambient := ambient - {due[i]};
      }
      assert (set g | g in due) == Due(old(ambient), now);
    }
  }

  lemma {:induction false} EarliestExists(ambient: map<string, Window>, todo: set<string>)
    requires todo != {} && todo <= ambient.Keys
    ensures exists g :: g in todo && forall h :: h in todo ==> Before(ambient[g], ambient[h])
  {
    var g :| g in todo;
    if todo == {g} {
      TextLeqIsTotal(ambient[g].group, ambient[g].group);
    } else {
      var rest := todo - {g};
      EarliestExists(ambient, rest);
      var m :| m in rest && forall h :: h in rest ==> Before(ambient[m], ambient[h]);
      TextLeqIsTotal(ambient[g].group, ambient[m].group);
      TextLeqIsTotal(ambient[g].group, ambient[g].group);
      if Before(ambient[m], ambient[g]) {
        assert forall h :: h in todo ==> Before(ambient[m], ambient[h]);
      } else {
        forall h | h in todo ensures Before(ambient[g], ambient[h]) {
          if h != g && ambient[m].deadline == ambient[g].deadline == ambient[h].deadline {
            TextLeqIsTransitive(ambient[g].group, ambient[m].group, ambient[h].group);
          }
        }
      }
    }
  }
}
