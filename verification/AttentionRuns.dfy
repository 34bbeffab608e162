/**
 * Whole runs of the attention scheduler, with a non-decreasing clock and no restored windows.
 * The trace keeps what the scheduler forgets: every debounced message, the messages of each
 * open window, and for each window already flushed its messages and its frame.
 */
module AttentionRuns {
  import opened Basics
  import opened Attention

  datatype Arrival = Arrival(event: string, topic: string, actor: string, at: int)

  datatype Closure = Closure(group: string, members: seq<Arrival>, frame: Frame)

  /** What a window takes on from every event of its group. */
  datatype Versions = Versions(sceneVersion: int, persona: Persona)

  datatype Trace = Trace(
    state: State,
    now: int,
    seen: map<string, Versions>,
    arrivals: map<string, seq<Arrival>>,
    open: map<string, seq<Arrival>>,
    closed: seq<Closure>)

  datatype Input =
    | Receive(e: Event, w: World, p: Persona, at: int)
    | Flush(at: int, order: seq<string>)

  const Start := Trace(State(map[], map[]), 0, map[], map[], map[], [])

  function Of(m: map<string, seq<Arrival>>, g: string): seq<Arrival> {
    if g in m then m[g] else []
  }

  ghost predicate Accepts(t: Trace, i: Input) {
    && t.now <= i.at
    && match i
       case Receive(e, w, _, _) => e.id != "" && e.group != "" && e.group == w.group && w.sceneVersion >= 1
       case Flush(at, order) => IsFlushOrder(order, t.state.ambient, Due(t.state.ambient, at))
  }

  function Closures(order: seq<string>, ambient: map<string, Window>, open: map<string, seq<Arrival>>): (r: seq<Closure>)
    requires forall i :: 0 <= i < |order| ==> order[i] in ambient
    ensures |r| == |order|
  {
    if order == [] then []
    else
      var g := order[|order| - 1];
      Closures(order[..|order| - 1], ambient, open) + [Closure(g, Of(open, g), AmbientFrame(ambient[g]))]
  }

  ghost function Next(t: Trace, i: Input): Trace
    requires Accepts(t, i)
  {
    match i
    case Receive(e, w, p, at) =>
      var next := t.(state := Attended(t.state, e, w, p, at), now := at, seen := t.seen[e.group := Versions(w.sceneVersion, p)]);
      if Route(e, w, at).Debounced? then
        var a := Arrival(e.id, e.topic, e.actor, at);
        next.(arrivals := t.arrivals[e.group := Of(t.arrivals, e.group) + [a]],
              open := t.open[e.group := Of(t.open, e.group) + [a]])
      else next
    case Flush(at, order) =>
      var due := Due(t.state.ambient, at);
      t.(state := t.state.(ambient := t.state.ambient - due), now := at, open := t.open - due,
         closed := t.closed + Closures(order, t.state.ambient, t.open))
  }

  ghost function Run(t: Trace, inputs: seq<Input>): Option<Trace>
    decreases |inputs|
  {
    if inputs == [] then Some(t)
    else if Accepts(t, inputs[0]) then Run(Next(t, inputs[0]), inputs[1..])
    else None
  }

  // ---------------------------------------------------------------- what a window remembers

  datatype Field = EventField | TopicField | ActorField

  function Get(a: Arrival, f: Field): string {
    match f
    case EventField => a.event
    case TopicField => a.topic
    case ActorField => a.actor
  }

  function Texts(members: seq<Arrival>, f: Field): seq<string> {
    if members == [] then []
    else Appended(Texts(members[..|members| - 1], f), Get(members[|members| - 1], f))
  }

  function AtTimes(members: seq<Arrival>): seq<int> {
    if members == [] then [] else AtTimes(members[..|members| - 1]) + [members[|members| - 1].at]
  }

  /** The bounded view of all the messages a window has collected. */
  function View(members: seq<Arrival>, f: Field, limit: nat): seq<string> {
    LastK(KeepLast(Texts(members, f)), limit)
  }

  ghost predicate Shows(events: seq<string>, topics: seq<string>, audiences: seq<string>, members: seq<Arrival>) {
    && events == View(members, EventField, 12)
    && topics == View(members, TopicField, 4)
    && audiences == View(members, ActorField, 8)
  }

  ghost predicate Prompt(deadline: int, members: seq<Arrival>) {
    forall m :: m in members ==> deadline <= m.at + 8
  }

  ghost predicate WindowInv(w: Window, g: string, members: seq<Arrival>) {
    && w.group == g && members != [] && w.startedAt == members[0].at
    && (forall m :: m in members ==> w.startedAt <= m.at)
    && w.deadline <= w.startedAt + WINDOW_MAX_SECONDS
    && Shows(w.events, w.topics, w.audiences, members)
  }

  ghost predicate ClosureInv(c: Closure) {
    && c.members != [] && c.frame.trigger == AMBIENT && c.frame.group == c.group
    && Shows(c.frame.events, c.frame.topics, c.frame.audiences, c.members)
    && Prompt(c.frame.deadline, c.members)
  }

  /** The deque holds the messages of the minute that ends with the group's last message. */
  ghost predicate RateInv(times: seq<int>, members: seq<Arrival>, now: int) {
    && Sorted(AtTimes(members)) && (forall t :: t in AtTimes(members) ==> t <= now)
    && (members == [] ==> times == [])
    && (members != [] ==> times == Since(AtTimes(members), members[|members| - 1].at - RATE_SECONDS))
  }

  function MembersOf(closed: seq<Closure>, g: string): seq<Arrival> {
    if closed == [] then []
    else
      var last := closed[|closed| - 1];
      MembersOf(closed[..|closed| - 1], g) + if last.group == g then last.members else []
  }

  ghost predicate GroupInv(t: Trace, g: string) {
    && Of(t.arrivals, g) == MembersOf(t.closed, g) + Of(t.open, g)
    && RateInv(Times(t.state, g), Of(t.arrivals, g), t.now)
    && (g in t.open <==> g in t.state.ambient)
    && (g in t.open ==> WindowInv(t.state.ambient[g], g, t.open[g]))
    && (g in t.open ==> DueExactly(t.state.ambient[g].deadline, Of(t.arrivals, g), t.open[g]))
    && (g in t.open ==> g in t.seen && t.seen[g] == Versions(t.state.ambient[g].sceneVersion, t.state.ambient[g].persona))
  }

  /**
   * The debounce: 2, 3 or 5 seconds after the last message, as the group wrote at most 3, at most
   * 12 or more messages in the minute before it, but at most 8 seconds after the first.
   */
  ghost predicate DueExactly(deadline: int, history: seq<Arrival>, members: seq<Arrival>) {
    && members != []
    && var first, last := members[0].at, members[|members| - 1].at;
       var n := Within(AtTimes(history), last - 60, last);
       var quiet := last + if n <= 3 then 2 else if n <= 12 then 3 else 5;
       deadline == if quiet <= first + 8 then quiet else first + 8
  }

  /** For a window already flushed the history is that of its group up to its last message. */
  ghost predicate ClosedExactly(closed: seq<Closure>, k: nat)
    requires k < |closed|
  {
    DueExactly(closed[k].frame.deadline, MembersOf(closed[..k + 1], closed[k].group), closed[k].members)
  }

  ghost predicate Inv(t: Trace) {
    && (forall g :: GroupInv(t, g))
    && (forall k :: 0 <= k < |t.closed| ==> ClosureInv(t.closed[k]))
    && (forall k: nat :: k < |t.closed| ==> ClosedExactly(t.closed, k))
  }

  // ---------------------------------------------------------------- steps

  lemma ShowsNext(events: seq<string>, topics: seq<string>, audiences: seq<string>, members: seq<Arrival>, a: Arrival)
    requires Shows(events, topics, audiences, members)
    ensures Shows(AppendRecentUnique(events, a.event, MAX_FOCUS_EVENTS), AppendRecentUnique(topics, a.topic, MAX_FOCUS_TOPICS),
                  AppendRecentUnique(audiences, a.actor, MAX_AUDIENCES), members + [a])
  {
    assert (members + [a])[..|members|] == members;
    RecentFollowsKeepLast(Texts(members, EventField), a.event, MAX_FOCUS_EVENTS);
    RecentFollowsKeepLast(Texts(members, TopicField), a.topic, MAX_FOCUS_TOPICS);
    RecentFollowsKeepLast(Texts(members, ActorField), a.actor, MAX_AUDIENCES);
  }

  lemma ShowsFirst(a: Arrival)
    requires a.event != ""
    ensures Shows([a.event], Singleton(a.topic), Singleton(a.actor), [a])
  {
    ShowsNext([], [], [], [], a);
    assert [] + [a] == [a];
  }

  lemma RateNext(times: seq<int>, members: seq<Arrival>, now: int, a: Arrival)
    requires RateInv(times, members, now) && now <= a.at
    ensures RateInv(Recorded(times, a.at), members + [a], a.at)
  {
    assert (members + [a])[..|members|] == members;
    SortedSnoc(AtTimes(members), a.at);
    if members == [] {
      assert AtTimes([a]) == [a.at];
      assert [] + [a.at] == [a.at];
    } else {
      var last := members[|members| - 1].at;
      assert AtTimes(members)[|AtTimes(members)| - 1] == last && last in AtTimes(members);
      RecordedIsExact(AtTimes(members), last, a.at);
    }
  }

  /** An event touches the window and the rate of its own group only. */
  lemma ReceiveIsLocal(t: Trace, i: Input, g: string)
    requires Accepts(t, i) && i.Receive? && g != i.e.group
    ensures var n := Next(t, i);
            && (g in n.state.ambient <==> g in t.state.ambient)
            && (g in t.state.ambient ==> n.state.ambient[g] == t.state.ambient[g])
            && Times(n.state, g) == Times(t.state, g)
            && Of(n.arrivals, g) == Of(t.arrivals, g) && Of(n.open, g) == Of(t.open, g)
  {
  }

  lemma ExtendKeepsWindow(w: Window, g: string, members: seq<Arrival>, e: Event, world: World, p: Persona, at: int, delay: int)
    requires WindowInv(w, g, members) && w.startedAt <= at && 0 < delay <= WINDOW_MAX_SECONDS
    ensures WindowInv(Extended(w, e, world, p, at, delay), g, members + [Arrival(e.id, e.topic, e.actor, at)])
  {
    ShowsNext(w.events, w.topics, w.audiences, members, Arrival(e.id, e.topic, e.actor, at));
  }

  lemma OpenMakesWindow(e: Event, world: World, p: Persona, at: int, delay: int)
    requires 0 < delay <= WINDOW_MAX_SECONDS && e.id != ""
    ensures WindowInv(Opened(e, world, p, at, delay), e.group, [Arrival(e.id, e.topic, e.actor, at)])
  {
    ShowsFirst(Arrival(e.id, e.topic, e.actor, at));
  }

  lemma DebounceKeepsGroup(t: Trace, i: Input)
    requires Accepts(t, i) && i.Receive? && Route(i.e, i.w, i.at).Debounced? && GroupInv(t, i.e.group)
    ensures GroupInv(Next(t, i), i.e.group)
  {
    if i.e.group in t.open {
      DebounceExtends(t, i);
    } else {
      DebounceOpens(t, i);
    }
    DebounceIsExact(t, i);
    GroupGrows(t, Next(t, i), i.e.group, Arrival(i.e.id, i.e.topic, i.e.actor, i.at));
  }

  /** The count behind the delay is that of the messages of the last minute, the new one included. */
  lemma DelayIsExact(t: Trace, i: Input)
    requires Accepts(t, i) && i.Receive? && GroupInv(t, i.e.group)
    ensures var a := Arrival(i.e.id, i.e.topic, i.e.actor, i.at);
            CountsMinute(Recorded(Times(t.state, i.e.group), i.at), AtTimes(Of(t.arrivals, i.e.group) + [a]), i.at)
  {
    var a, g := Arrival(i.e.id, i.e.topic, i.e.actor, i.at), i.e.group;
    RateNext(Times(t.state, g), Of(t.arrivals, g), t.now, a);
    RateOf(Recorded(Times(t.state, g), i.at), Of(t.arrivals, g) + [a], i.at);
  }

  lemma DebounceIsExact(t: Trace, i: Input)
    requires Accepts(t, i) && i.Receive? && Route(i.e, i.w, i.at).Debounced? && GroupInv(t, i.e.group)
    ensures var n, g := Next(t, i), i.e.group;
            g in n.open && g in n.state.ambient && DueExactly(n.state.ambient[g].deadline, Of(n.arrivals, g), n.open[g])
  {
    var g := i.e.group;
    var a := Arrival(i.e.id, i.e.topic, i.e.actor, i.at);
    DelayIsExact(t, i);
    DebounceDeadline(t, i);
    DueOf(Next(t, i).state.ambient[g].deadline, Recorded(Times(t.state, g), i.at), Of(t.arrivals, g) + [a], Of(t.open, g) + [a]);
  }

  lemma DebounceDeadline(t: Trace, i: Input)
    requires Accepts(t, i) && i.Receive? && Route(i.e, i.w, i.at).Debounced? && GroupInv(t, i.e.group)
    ensures var n, g, a := Next(t, i), i.e.group, Arrival(i.e.id, i.e.topic, i.e.actor, i.at);
            && g in n.open && g in n.state.ambient
            && Of(n.arrivals, g) == Of(t.arrivals, g) + [a] && n.open[g] == Of(t.open, g) + [a]
            && n.state.ambient[g].deadline ==
               if g in t.open then Min(i.at + Delay(|Recorded(Times(t.state, g), i.at)|), t.open[g][0].at + 8)
               else i.at + Delay(|Recorded(Times(t.state, g), i.at)|)
  {
    if i.e.group in t.open {
      assert WindowInv(t.state.ambient[i.e.group], i.e.group, t.open[i.e.group]);
    }
  }

  lemma DueOf(deadline: int, times: seq<int>, history: seq<Arrival>, members: seq<Arrival>)
    requires members != [] && CountsMinute(times, AtTimes(history), members[|members| - 1].at)
    requires var last := members[|members| - 1].at;
             || deadline == Min(last + Delay(|times|), members[0].at + 8)
             || (|members| == 1 && deadline == last + Delay(|times|))
    ensures DueExactly(deadline, history, members)
  {
  }

  lemma GroupGrows(t: Trace, n: Trace, g: string, a: Arrival)
    requires GroupInv(t, g) && t.now <= a.at && n.now == a.at && n.closed == t.closed
    requires Of(n.arrivals, g) == Of(t.arrivals, g) + [a] && Of(n.open, g) == Of(t.open, g) + [a]
    requires Times(n.state, g) == Recorded(Times(t.state, g), a.at)
    requires g in n.open && g in n.state.ambient && WindowInv(n.state.ambient[g], g, n.open[g])
    requires DueExactly(n.state.ambient[g].deadline, Of(n.arrivals, g), n.open[g])
    requires g in n.seen && n.seen[g] == Versions(n.state.ambient[g].sceneVersion, n.state.ambient[g].persona)
    ensures GroupInv(n, g)
  {
    RateNext(Times(t.state, g), Of(t.arrivals, g), t.now, a);
    ConcatSnoc(MembersOf(t.closed, g), Of(t.open, g), a);
  }

  lemma ConcatSnoc(front: seq<Arrival>, members: seq<Arrival>, a: Arrival)
    ensures front + members + [a] == front + (members + [a])
  {
  }

  lemma DebounceExtends(t: Trace, i: Input)
    requires Accepts(t, i) && i.Receive? && Route(i.e, i.w, i.at).Debounced? && GroupInv(t, i.e.group) && i.e.group in t.open
    ensures var n, g := Next(t, i), i.e.group;
            && g in n.open && g in n.state.ambient && WindowInv(n.state.ambient[g], g, n.open[g])
            && n.open[g] == t.open[g] + [Arrival(i.e.id, i.e.topic, i.e.actor, i.at)]
  {
    var g := i.e.group;
    var w := Refreshed(t.state, g, i.w, i.p).ambient[g];
    OldestFirst(t, g, t.open[g][0]);
    assert WindowInv(w, g, t.open[g]);
    ExtendKeepsWindow(w, g, t.open[g], i.e, i.w, i.p, i.at, Delay(|Recorded(Times(t.state, g), i.at)|));
  }

  lemma DebounceOpens(t: Trace, i: Input)
    requires Accepts(t, i) && i.Receive? && Route(i.e, i.w, i.at).Debounced? && GroupInv(t, i.e.group) && i.e.group !in t.open
    ensures var n, g := Next(t, i), i.e.group;
            && g in n.open && g in n.state.ambient && WindowInv(n.state.ambient[g], g, n.open[g])
            && n.open[g] == [Arrival(i.e.id, i.e.topic, i.e.actor, i.at)]
  {
    OpenMakesWindow(i.e, i.w, i.p, i.at, Delay(|Recorded(Times(t.state, i.e.group), i.at)|));
  }

  lemma ReceiveKeepsGroup(t: Trace, i: Input, g: string)
    requires Accepts(t, i) && i.Receive? && GroupInv(t, g)
    ensures GroupInv(Next(t, i), g)
  {
    if g != i.e.group {
      ReceiveIsLocal(t, i, g);
    } else if Route(i.e, i.w, i.at).Debounced? {
      DebounceKeepsGroup(t, i);
    } else if g in t.open {
      assert WindowInv(t.state.ambient[g], g, t.open[g]);
    }
  }

  lemma {:induction false} AtTimesOf(members: seq<Arrival>, m: Arrival)
    requires m in members
    ensures m.at in AtTimes(members)
  {
    var last := members[|members| - 1];
    assert members == members[..|members| - 1] + [last];
    if m != last {
      AtTimesOf(members[..|members| - 1], m);
    }
  }

  lemma OldestFirst(t: Trace, g: string, m: Arrival)
    requires GroupInv(t, g) && m in Of(t.arrivals, g)
    ensures m.at <= t.now
  {
    AtTimesOf(Of(t.arrivals, g), m);
  }

  lemma ClosuresSnoc(order: seq<string>, ambient: map<string, Window>, open: map<string, seq<Arrival>>)
    requires order != [] && forall i :: 0 <= i < |order| ==> order[i] in ambient
    ensures var front, last := order[..|order| - 1], order[|order| - 1];
            && order == front + [last]
            && Closures(order, ambient, open) == Closures(front, ambient, open) + [Closure(last, Of(open, last), AmbientFrame(ambient[last]))]
  {
  }

  lemma {:induction false} ClosuresAt(order: seq<string>, ambient: map<string, Window>, open: map<string, seq<Arrival>>)
    requires forall i :: 0 <= i < |order| ==> order[i] in ambient
    ensures |Closures(order, ambient, open)| == |order|
    ensures forall k :: 0 <= k < |order| ==>
              Closures(order, ambient, open)[k] == Closure(order[k], Of(open, order[k]), AmbientFrame(ambient[order[k]]))
  {
    if order != [] {
      ClosuresSnoc(order, ambient, open);
      ClosuresAt(order[..|order| - 1], ambient, open);
    }
  }

  lemma {:induction false} ClosuresOf(order: seq<string>, ambient: map<string, Window>, open: map<string, seq<Arrival>>, g: string)
    requires forall i :: 0 <= i < |order| ==> order[i] in ambient
    requires forall i, j :: 0 <= i < j < |order| ==> order[i] != order[j]
    ensures MembersOf(Closures(order, ambient, open), g) == if g in order then Of(open, g) else []
  {
    if order != [] {
      var front := order[..|order| - 1];
      ClosuresSnoc(order, ambient, open);
      ClosuresOf(front, ambient, open, g);
      var all := Closures(order, ambient, open);
      assert all[..|all| - 1] == Closures(front, ambient, open);
    }
  }

  lemma {:induction false} MembersOfConcat(a: seq<Closure>, b: seq<Closure>, g: string)
    ensures MembersOf(a + b, g) == MembersOf(a, g) + MembersOf(b, g)
  {
    if b == [] {
      assert a + b == a;
    } else {
      assert (a + b)[..|a + b| - 1] == a + b[..|b| - 1];
      MembersOfConcat(a, b[..|b| - 1], g);
    }
  }

  lemma ClosedWith(closed: seq<Closure>, order: seq<string>, ambient: map<string, Window>, open: map<string, seq<Arrival>>, g: string)
    requires forall i :: 0 <= i < |order| ==> order[i] in ambient
    requires forall i, j :: 0 <= i < j < |order| ==> order[i] != order[j]
    ensures MembersOf(closed + Closures(order, ambient, open), g) == MembersOf(closed, g) + if g in order then Of(open, g) else []
  {
    ClosuresOf(order, ambient, open, g);
    MembersOfConcat(closed, Closures(order, ambient, open), g);
  }

  lemma FlushMovesMembers(t: Trace, i: Input, g: string)
    requires Accepts(t, i) && i.Flush?
    ensures MembersOf(Next(t, i).closed, g) + Of(Next(t, i).open, g) == MembersOf(t.closed, g) + Of(t.open, g)
  {
    var due := Due(t.state.ambient, i.at);
    ClosedWith(t.closed, i.order, t.state.ambient, t.open, g);
    assert g in i.order <==> g in due;
    assert Of(t.open - due, g) == if g in due then [] else Of(t.open, g);
  }

  lemma FlushKeepsGroup(t: Trace, i: Input, g: string)
    requires Accepts(t, i) && i.Flush? && GroupInv(t, g)
    ensures GroupInv(Next(t, i), g)
  {
    FlushMovesMembers(t, i, g);
    var n := Next(t, i);
    assert Times(n.state, g) == Times(t.state, g) && n.arrivals == t.arrivals;
    if g in n.open {
      assert n.open[g] == t.open[g] && n.state.ambient[g] == t.state.ambient[g];
    }
  }

  lemma WindowCloses(w: Window, g: string, members: seq<Arrival>)
    requires WindowInv(w, g, members)
    ensures ClosureInv(Closure(g, members, AmbientFrame(w)))
  {
  }

  /** What a flush yields: the windows that are due, as they stand, by deadline and group; and none is left that is due. */
  lemma FlushMeans(t: Trace, i: Input, k: nat, l: nat)
    requires Accepts(t, i) && i.Flush?
    ensures var n := Next(t, i);
            && |n.closed| == |t.closed| + |i.order| && t.closed <= n.closed
            && (forall g :: g in n.state.ambient <==> g in t.state.ambient && t.state.ambient[g].deadline > i.at)
            && (forall g :: g in n.state.ambient ==> n.state.ambient[g] == t.state.ambient[g])
            && (k < l < |i.order| ==>
                  var a, b := t.state.ambient[i.order[k]], t.state.ambient[i.order[l]];
                  a.deadline < b.deadline || (a.deadline == b.deadline && TextLeq(a.group, b.group)))
            && (k < |i.order| ==>
                  var w, c := t.state.ambient[i.order[k]], n.closed[|t.closed| + k];
                  && w.deadline <= i.at && c.group == i.order[k] && c.members == Of(t.open, c.group)
                  && c.frame == Frame(w.group, w.sceneVersion, AMBIENT, w.topics, w.events, w.audiences, w.deadline, w.persona))
  {
    ClosuresAt(i.order, t.state.ambient, t.open);
  }

  lemma FlushClosesExactly(t: Trace, i: Input, k: nat)
    requires Accepts(t, i) && i.Flush? && Inv(t) && k < |i.order|
    ensures ClosedExactly(t.closed + Closures(i.order, t.state.ambient, t.open), |t.closed| + k)
  {
    var added := Closures(i.order, t.state.ambient, t.open);
    var g := i.order[k];
    ClosuresAt(i.order, t.state.ambient, t.open);
    ClosuresUpTo(i.order, t.state.ambient, t.open, k + 1);
    assert (t.closed + added)[..|t.closed| + k + 1] == t.closed + added[..k + 1];
    ClosedWith(t.closed, i.order[..k + 1], t.state.ambient, t.open, g);
    assert i.order[..k + 1][k] == g;
    assert g in i.order && GroupInv(t, g);
  }

  lemma {:induction false} ClosuresUpTo(order: seq<string>, ambient: map<string, Window>, open: map<string, seq<Arrival>>, n: nat)
    requires n <= |order| && forall i :: 0 <= i < |order| ==> order[i] in ambient
    ensures |Closures(order, ambient, open)| == |order|
    ensures Closures(order, ambient, open)[..n] == Closures(order[..n], ambient, open)
  {
    ClosuresAt(order, ambient, open);
    if n == |order| {
      assert order[..n] == order;
    } else {
      var front := order[..|order| - 1];
      ClosuresAt(front, ambient, open);
      ClosuresUpTo(front, ambient, open, n);
      assert front[..n] == order[..n];
    }
  }

  lemma ClosedStays(closed: seq<Closure>, added: seq<Closure>, k: nat)
    requires k < |closed| && ClosedExactly(closed, k)
    ensures ClosedExactly(closed + added, k)
  {
    assert (closed + added)[..k + 1] == closed[..k + 1];
  }

  lemma FlushKeepsExactness(t: Trace, i: Input)
    requires Accepts(t, i) && i.Flush? && Inv(t)
    ensures forall k: nat :: k < |Next(t, i).closed| ==> ClosedExactly(Next(t, i).closed, k)
  {
    var all := Next(t, i).closed;
    ClosuresAt(i.order, t.state.ambient, t.open);
    forall k: nat | k < |all| ensures ClosedExactly(all, k) {
      if k < |t.closed| {
        assert ClosedExactly(t.closed, k);
        ClosedStays(t.closed, Closures(i.order, t.state.ambient, t.open), k);
      } else {
        FlushClosesExactly(t, i, k - |t.closed|);
      }
    }
  }

  lemma FlushKeepsClosures(t: Trace, i: Input)
    requires Accepts(t, i) && i.Flush? && Inv(t)
    ensures forall k :: 0 <= k < |Next(t, i).closed| ==> ClosureInv(Next(t, i).closed[k])
  {
    var added := Closures(i.order, t.state.ambient, t.open);
    ClosuresAt(i.order, t.state.ambient, t.open);
    forall k | 0 <= k < |added| ensures ClosureInv(added[k]) {
      var g := i.order[k];
      assert g in i.order && GroupInv(t, g);
      WindowCloses(t.state.ambient[g], g, t.open[g]);
    }
  }

  lemma NextKeepsInv(t: Trace, i: Input)
    requires Inv(t) && Accepts(t, i)
    ensures Inv(Next(t, i))
  {
    forall g ensures GroupInv(Next(t, i), g) {
      assert GroupInv(t, g);
      if i.Receive? {
        ReceiveKeepsGroup(t, i, g);
      } else {
        FlushKeepsGroup(t, i, g);
      }
    }
    if i.Flush? {
      FlushKeepsClosures(t, i);
      FlushKeepsExactness(t, i);
    }
  }

  lemma {:induction false} RunKeepsInv(t: Trace, inputs: seq<Input>)
    requires Inv(t) && Run(t, inputs).Some?
    ensures Inv(Run(t, inputs).value)
    decreases |inputs|
  {
    if inputs != [] {
      NextKeepsInv(t, inputs[0]);
      RunKeepsInv(Next(t, inputs[0]), inputs[1..]);
    }
  }

  lemma StartIsInv()
    ensures Inv(Start)
  {
    forall g ensures GroupInv(Start, g) {
    }
  }

  // ---------------------------------------------------------------- what every run guarantees

  /**
   * The messages of a group, in arrival order, are cut into consecutive windows: those flushed
   * so far and the pending one.  Nothing is lost, repeated, reordered or moved between groups.
   */
  lemma HistoryIsCutIntoWindows(inputs: seq<Input>, g: string)
    requires Run(Start, inputs).Some?
    ensures var t := Run(Start, inputs).value;
            && Of(t.arrivals, g) == MembersOf(t.closed, g) + Of(t.open, g)
            && (Of(t.open, g) != [] <==> g in t.state.ambient)
  {
    StartIsInv();
    RunKeepsInv(Start, inputs);
    assert GroupInv(Run(Start, inputs).value, g);
  }

  /** Windows show the last 12, 4 and 8 distinct entries, and are due within 8 seconds of every message they hold. */
  lemma WindowsAreExactAndPrompt(inputs: seq<Input>, g: string, k: nat)
    requires Run(Start, inputs).Some?
    ensures var t := Run(Start, inputs).value;
            && (g in t.state.ambient ==>
                  var w := t.state.ambient[g];
                  && Shows(w.events, w.topics, w.audiences, Of(t.open, g)) && Prompt(w.deadline, Of(t.open, g)))
            && (k < |t.closed| ==>
                  var c := t.closed[k];
                  && c.frame.trigger == AMBIENT && c.frame.group == c.group
                  && Shows(c.frame.events, c.frame.topics, c.frame.audiences, c.members) && Prompt(c.frame.deadline, c.members))
  {
    StartIsInv();
    RunKeepsInv(Start, inputs);
    assert GroupInv(Run(Start, inputs).value, g);
  }

  /**
   * The debounce over every run: the pending window and every window flushed is due exactly when its
   * last message and the rate of the group at that message say, and shows the versions of the last event.
   */
  lemma DeadlinesAreExact(inputs: seq<Input>, g: string, k: nat)
    requires Run(Start, inputs).Some?
    ensures var t := Run(Start, inputs).value;
            && (g in t.state.ambient ==>
                  && DueExactly(t.state.ambient[g].deadline, Of(t.arrivals, g), Of(t.open, g))
                  && g in t.seen && t.seen[g] == Versions(t.state.ambient[g].sceneVersion, t.state.ambient[g].persona))
            && (k < |t.closed| ==>
                  DueExactly(t.closed[k].frame.deadline, MembersOf(t.closed[..k + 1], t.closed[k].group), t.closed[k].members))
  {
    StartIsInv();
    RunKeepsInv(Start, inputs);
    assert GroupInv(Run(Start, inputs).value, g);
    assert k < |Run(Start, inputs).value.closed| ==> ClosedExactly(Run(Start, inputs).value.closed, k);
  }

  function Within(times: seq<int>, from: int, to: int): nat {
    if times == [] then 0
    else Within(times[..|times| - 1], from, to) + if from <= times[|times| - 1] <= to then 1 else 0
  }

  lemma {:induction false} WithinIsSince(times: seq<int>, from: int, to: int)
    requires forall t :: t in times ==> t <= to
    ensures |Since(times, from)| == Within(times, from, to)
  {
    if times != [] {
      var front, last := times[..|times| - 1], times[|times| - 1];
      assert times == front + [last];
      assert last in times && forall t :: t in front ==> t in times;
      WithinIsSince(front, from, to);
      SinceSnoc(front, last, from);
    }
  }

  lemma {:induction false} SinceSnoc(times: seq<int>, x: int, cutoff: int)
    ensures Since(times + [x], cutoff) == Since(times, cutoff) + if x >= cutoff then [x] else []
  {
    if times == [] {
      assert [] + [x] == [x];
    } else {
      assert (times + [x])[1..] == times[1..] + [x];
      SinceSnoc(times[1..], x, cutoff);
    }
  }

  /** The count behind a debounce delay is the number of the group's messages in the last minute. */
  lemma RateIsExact(inputs: seq<Input>, g: string)
    requires Run(Start, inputs).Some? && Of(Run(Start, inputs).value.arrivals, g) != []
    ensures var t := Run(Start, inputs).value;
            var messages := Of(t.arrivals, g);
            var now := messages[|messages| - 1].at;
            |Times(t.state, g)| == Within(AtTimes(messages), now - RATE_SECONDS, now)
  {
    StartIsInv();
    RunKeepsInv(Start, inputs);
    var t := Run(Start, inputs).value;
    assert GroupInv(t, g);
    RateOf(Times(t.state, g), Of(t.arrivals, g), t.now);
  }

  lemma RateOf(times: seq<int>, messages: seq<Arrival>, now: int)
    requires RateInv(times, messages, now) && messages != []
    ensures CountsMinute(times, AtTimes(messages), messages[|messages| - 1].at)
  {
    LastOfTimes(messages);
    RateOfTimes(times, AtTimes(messages), messages[|messages| - 1].at);
  }

  /** There are as many times as lie in the minute up to `last`. */
  predicate CountsMinute(times: seq<int>, all: seq<int>, last: int) {
    |times| == Within(all, last - RATE_SECONDS, last)
  }

  lemma LastOfTimes(messages: seq<Arrival>)
    requires messages != []
    ensures AtTimes(messages) != [] && AtTimes(messages)[|AtTimes(messages)| - 1] == messages[|messages| - 1].at
  {
  }

  lemma RateOfTimes(times: seq<int>, all: seq<int>, last: int)
    requires Sorted(all) && all != [] && all[|all| - 1] == last && times == Since(all, last - RATE_SECONDS)
    ensures CountsMinute(times, all, last)
  {
    UpToLast(all);
    WithinIsSince(all, last - RATE_SECONDS, last);
  }

  lemma UpToLast(times: seq<int>)
    requires Sorted(times) && times != []
    ensures forall t :: t in times ==> t <= times[|times| - 1]
  {
  }

  // ---------------------------------------------------------------- one frame at most

  /** Message i of g and message j of h carry the same event id. */
  ghost predicate IsAt(t: Trace, g: string, i: nat, h: string, j: nat) {
    && i < |Of(t.arrivals, g)| && j < |Of(t.arrivals, h)|
    && Of(t.arrivals, g)[i].event == Of(t.arrivals, h)[j].event
  }

  /** Event ids are never reused. */
  ghost predicate DistinctIds(t: Trace) {
    forall g, h, i, j :: IsAt(t, g, i, h, j) ==> g == h && i == j
  }

  /** Where a member of a closed window stands in the history of its group. */
  lemma {:induction false} PositionOf(closed: seq<Closure>, k: nat, i: nat) returns (at: nat)
    requires k < |closed| && i < |closed[k].members|
    ensures at == |MembersOf(closed[..k], closed[k].group)| + i < |MembersOf(closed, closed[k].group)|
    ensures MembersOf(closed, closed[k].group)[at] == closed[k].members[i]
  {
    var front := closed[..|closed| - 1];
    if k == |closed| - 1 {
      at := |MembersOf(front, closed[k].group)| + i;
    } else {
      assert front[k] == closed[k] && front[..k] == closed[..k];
      at := PositionOf(front, k, i);
    }
  }

  lemma {:induction false} MembersGrow(closed: seq<Closure>, j: nat, k: nat, g: string)
    requires j <= k <= |closed|
    ensures |MembersOf(closed[..j], g)| <= |MembersOf(closed[..k], g)|
    decreases k
  {
    if j < k {
      assert closed[..k][..k - 1] == closed[..k - 1];
      MembersGrow(closed, j, k - 1, g);
    }
  }

  lemma {:induction false} TextsOf(members: seq<Arrival>, id: string)
    requires id in Texts(members, EventField)
    ensures exists i :: 0 <= i < |members| && members[i].event == id
  {
    var front, last := members[..|members| - 1], members[|members| - 1];
    if id == last.event {
      assert members[|members| - 1].event == id;
    } else {
      TextsOf(front, id);
      var i :| 0 <= i < |front| && front[i].event == id;
      assert members[i].event == id;
    }
  }

  lemma ShownIsMember(members: seq<Arrival>, id: string) returns (i: nat)
    requires id in View(members, EventField, MAX_FOCUS_EVENTS)
    ensures i < |members| && members[i].event == id
  {
    KeepLastOf(Texts(members, EventField));
    TextsOf(members, id);
    i :| 0 <= i < |members| && members[i].event == id;
  }

  /** An event a closed window shows arrived in the part of the history that window took. */
  lemma ShownArrived(t: Trace, k: nat, id: string) returns (at: nat)
    requires Inv(t) && k < |t.closed| && id in t.closed[k].frame.events
    ensures var g := t.closed[k].group;
            && |MembersOf(t.closed[..k], g)| <= at < |MembersOf(t.closed[..k + 1], g)|
            && at < |MembersOf(t.closed, g)| && at < |Of(t.arrivals, g)| && Of(t.arrivals, g)[at].event == id
  {
    var g := t.closed[k].group;
    assert GroupInv(t, g) && ClosureInv(t.closed[k]);
    var i := ShownIsMember(t.closed[k].members, id);
    at := PositionOf(t.closed, k, i);
    MembersUpTo(t.closed, k, g);
  }

  lemma ShownTwice(t: Trace, id: string, j: nat, k: nat) returns (a: nat, b: nat)
    requires Inv(t) && j < k < |t.closed| && id in t.closed[j].frame.events && id in t.closed[k].frame.events
    ensures IsAt(t, t.closed[j].group, a, t.closed[k].group, b)
    ensures t.closed[j].group == t.closed[k].group ==> a < b
  {
    a := ShownArrived(t, j, id);
    b := ShownArrived(t, k, id);
    MembersGrow(t.closed, j + 1, k, t.closed[j].group);
  }

  lemma PendingArrived(t: Trace, id: string, g: string) returns (b: nat)
    requires GroupInv(t, g) && g in t.state.ambient && id in t.state.ambient[g].events
    ensures |MembersOf(t.closed, g)| <= b < |Of(t.arrivals, g)| && Of(t.arrivals, g)[b].event == id
  {
    b := MemberArrived(MembersOf(t.closed, g), t.open[g], id);
  }

  lemma MemberArrived(before: seq<Arrival>, members: seq<Arrival>, id: string) returns (b: nat)
    requires id in View(members, EventField, MAX_FOCUS_EVENTS)
    ensures |before| <= b < |before + members| && (before + members)[b].event == id
  {
    var i := ShownIsMember(members, id);
    b := |before| + i;
  }

  lemma ShownAndPending(t: Trace, id: string, k: nat, g: string) returns (a: nat, b: nat)
    requires Inv(t) && k < |t.closed| && id in t.closed[k].frame.events
    requires GroupInv(t, g) && g in t.state.ambient && id in t.state.ambient[g].events
    ensures IsAt(t, t.closed[k].group, a, g, b)
    ensures t.closed[k].group == g ==> a < b
  {
    a := ShownArrived(t, k, id);
    b := PendingArrived(t, id, g);
  }

  /** With event ids that are never reused, no event is shown in two frames, or in a frame and a pending window. */
  lemma AtMostOneFrame(inputs: seq<Input>, id: string, j: nat, k: nat, g: string)
    requires Run(Start, inputs).Some? && DistinctIds(Run(Start, inputs).value)
    requires k < |Run(Start, inputs).value.closed| && id in Run(Start, inputs).value.closed[k].frame.events
    ensures j < k ==> id !in Run(Start, inputs).value.closed[j].frame.events
    ensures g in Run(Start, inputs).value.state.ambient ==> id !in Run(Start, inputs).value.state.ambient[g].events
  {
    StartIsInv();
    RunKeepsInv(Start, inputs);
    var t := Run(Start, inputs).value;
    if j < k && id in t.closed[j].frame.events {
      var a, b := ShownTwice(t, id, j, k);
      assert false;
    }
    if g in t.state.ambient && id in t.state.ambient[g].events {
      assert GroupInv(t, g);
      var a, b := ShownAndPending(t, id, k, g);
      assert false;
    }
  }

  lemma MembersUpTo(closed: seq<Closure>, j: nat, g: string)
    requires j < |closed| && closed[j].group == g
    ensures |MembersOf(closed[..j + 1], g)| == |MembersOf(closed[..j], g)| + |closed[j].members|
  {
    assert closed[..j + 1][..j] == closed[..j];
  }

  lemma {:induction false} TextsAreIds(members: seq<Arrival>)
    requires forall m :: m in members ==> m.event != ""
    ensures |Texts(members, EventField)| == |members|
    ensures forall i :: 0 <= i < |members| ==> Texts(members, EventField)[i] == members[i].event
  {
    if members != [] {
      assert members == members[..|members| - 1] + [members[|members| - 1]];
      TextsAreIds(members[..|members| - 1]);
    }
  }

  /** A message is shown by its window exactly unless 12 newer ones displaced it there. */
  lemma ShownUnlessDisplaced(members: seq<Arrival>, i: nat)
    requires forall m :: m in members ==> m.event != ""
    requires forall a, b :: 0 <= a < b < |members| ==> members[a].event != members[b].event
    requires i < |members|
    ensures members[i].event in View(members, EventField, MAX_FOCUS_EVENTS) <==> |members| - i <= MAX_FOCUS_EVENTS
  {
    var ids := Texts(members, EventField);
    TextsAreIds(members);
    assert NoRepeats(ids);
    KeepLastOf(ids);
    var shown := LastK(ids, MAX_FOCUS_EVENTS);
    var cut := |ids| - |shown|;
    assert forall k :: 0 <= k < |shown| ==> shown[k] == ids[cut + k];
    if i >= cut {
      assert shown[i - cut] == members[i].event;
    }
  }

  // ---------------------------------------------------------------- the one window of a message

  ghost predicate Named(t: Trace) {
    forall g, n :: 0 <= n < |Of(t.arrivals, g)| ==> Of(t.arrivals, g)[n].event != ""
  }

  lemma NextStaysNamed(t: Trace, i: Input)
    requires Accepts(t, i) && Named(t)
    ensures Named(Next(t, i))
  {
    if i.Receive? {
      var before, after := t.arrivals, Next(t, i).arrivals;
      forall g, n | 0 <= n < |Of(after, g)| ensures Of(after, g)[n].event != "" {
        if n < |Of(before, g)| {
          assert Of(after, g)[n] == Of(before, g)[n];
        }
      }
    }
  }

  lemma {:induction false} RunStaysNamed(t: Trace, inputs: seq<Input>)
    requires Run(t, inputs).Some? && Named(t)
    ensures Named(Run(t, inputs).value)
    decreases |inputs|
  {
    if inputs != [] {
      NextStaysNamed(t, inputs[0]);
      RunStaysNamed(Next(t, inputs[0]), inputs[1..]);
    }
  }

  datatype Place = Pending | Flushed(k: nat)

  /** The messages and the shown event ids of a window of the group. */
  predicate IsPlace(t: Trace, g: string, place: Place) {
    match place
    case Pending => g in t.state.ambient
    case Flushed(k) => k < |t.closed| && t.closed[k].group == g
  }

  function MembersIn(t: Trace, g: string, place: Place): seq<Arrival>
    requires IsPlace(t, g, place)
  {
    match place
    case Pending => Of(t.open, g)
    case Flushed(k) => t.closed[k].members
  }

  function ShownIn(t: Trace, g: string, place: Place): seq<string>
    requires IsPlace(t, g, place)
  {
    match place
    case Pending => t.state.ambient[g].events
    case Flushed(k) => t.closed[k].frame.events
  }

  /** Where in the history of its group a window begins. */
  function StartsAt(t: Trace, g: string, place: Place): nat {
    match place
    case Pending => |MembersOf(t.closed, g)|
    case Flushed(k) => if k <= |t.closed| then |MembersOf(t.closed[..k], g)| else 0
  }

  lemma {:induction false} FlushedWith(closed: seq<Closure>, g: string, n: nat) returns (k: nat)
    requires n < |MembersOf(closed, g)|
    ensures k < |closed| && closed[k].group == g
    ensures |MembersOf(closed[..k], g)| <= n < |MembersOf(closed[..k], g)| + |closed[k].members|
  {
    var front := closed[..|closed| - 1];
    if n < |MembersOf(front, g)| {
      k := FlushedWith(front, g, n);
      assert front[..k] == closed[..k];
    } else {
      k := |closed| - 1;
    }
  }

  /** The window holds consecutive messages of its group. */
  lemma MembersAreHistory(t: Trace, g: string, place: Place, i: nat)
    requires Of(t.arrivals, g) == MembersOf(t.closed, g) + Of(t.open, g) && IsPlace(t, g, place) && i < |MembersIn(t, g, place)|
    ensures StartsAt(t, g, place) + i < |Of(t.arrivals, g)|
    ensures MembersIn(t, g, place)[i] == Of(t.arrivals, g)[StartsAt(t, g, place) + i]
  {
    if place.Flushed? {
      var at := PositionOf(t.closed, place.k, i);
    }
  }

  /** Message n of the group is a member of this window. */
  predicate HoldsMessage(t: Trace, g: string, n: nat, place: Place) {
    && n < |Of(t.arrivals, g)| && IsPlace(t, g, place) && StartsAt(t, g, place) <= n
    && n - StartsAt(t, g, place) < |MembersIn(t, g, place)|
    && MembersIn(t, g, place)[n - StartsAt(t, g, place)] == Of(t.arrivals, g)[n]
  }

  /** Message n of the group is in one of its windows. */
  lemma PlaceOf(t: Trace, g: string, n: nat) returns (place: Place)
    requires Inv(t) && n < |Of(t.arrivals, g)|
    ensures HoldsMessage(t, g, n, place)
  {
    assert GroupInv(t, g);
    place := PlaceIn(t, g, n);
    MembersAreHistory(t, g, place, n - StartsAt(t, g, place));
  }

  lemma PlaceIn(t: Trace, g: string, n: nat) returns (place: Place)
    requires GroupInv(t, g) && n < |Of(t.arrivals, g)|
    ensures IsPlace(t, g, place) && StartsAt(t, g, place) <= n < StartsAt(t, g, place) + |MembersIn(t, g, place)|
  {
    if n < |MembersOf(t.closed, g)| {
      var k := FlushedWith(t.closed, g, n);
      place := Flushed(k);
    } else {
      place := Pending;
    }
  }

  lemma PlaceIsUnique(t: Trace, g: string, a: Place, b: Place, n: nat)
    requires Inv(t) && IsPlace(t, g, a) && IsPlace(t, g, b)
    requires StartsAt(t, g, a) <= n < StartsAt(t, g, a) + |MembersIn(t, g, a)|
    requires StartsAt(t, g, b) <= n < StartsAt(t, g, b) + |MembersIn(t, g, b)|
    ensures a == b
  {
    if a.Flushed? && (b.Flushed? ==> a.k < b.k) {
      EndsBefore(t, g, a, b);
    } else if b.Flushed? && (a.Flushed? ==> b.k < a.k) {
      EndsBefore(t, g, b, a);
    }
  }

  lemma EndsBefore(t: Trace, g: string, a: Place, b: Place)
    requires IsPlace(t, g, a) && IsPlace(t, g, b) && a.Flushed? && (b.Flushed? ==> a.k < b.k)
    ensures StartsAt(t, g, a) + |MembersIn(t, g, a)| <= StartsAt(t, g, b)
  {
    MembersUpTo(t.closed, a.k, g);
    if b.Flushed? {
      MembersGrow(t.closed, a.k + 1, b.k, g);
    } else {
      MembersGrow(t.closed, a.k + 1, |t.closed|, g);
      assert t.closed[..|t.closed|] == t.closed;
    }
  }

  lemma ViewOf(t: Trace, g: string, place: Place)
    requires Inv(t) && IsPlace(t, g, place)
    ensures ShownIn(t, g, place) == View(MembersIn(t, g, place), EventField, MAX_FOCUS_EVENTS)
  {
    assert GroupInv(t, g);
    if place.Flushed? {
      assert ClosureInv(t.closed[place.k]);
    }
  }

  lemma MembersAreDistinct(t: Trace, g: string, place: Place)
    requires GroupInv(t, g) && Named(t) && DistinctIds(t) && IsPlace(t, g, place)
    ensures var members := MembersIn(t, g, place);
            && (forall m :: m in members ==> m.event != "")
            && forall a, b :: 0 <= a < b < |members| ==> members[a].event != members[b].event
  {
    var members := MembersIn(t, g, place);
    forall i | 0 <= i < |members| ensures members[i].event != "" {
      MembersAreHistory(t, g, place, i);
    }
    forall a, b | 0 <= a < b < |members| ensures members[a].event != members[b].event {
      MembersDiffer(t, g, place, a, b);
    }
  }

  lemma MembersDiffer(t: Trace, g: string, place: Place, a: nat, b: nat)
    requires Of(t.arrivals, g) == MembersOf(t.closed, g) + Of(t.open, g)
    requires DistinctIds(t) && IsPlace(t, g, place) && a < b < |MembersIn(t, g, place)|
    ensures MembersIn(t, g, place)[a].event != MembersIn(t, g, place)[b].event
  {
    var from := StartsAt(t, g, place);
    MembersAreHistory(t, g, place, a);
    MembersAreHistory(t, g, place, b);
    assert !IsAt(t, g, from + a, g, from + b);
  }

  /**
   * In every run each message has exactly one window, flushed or pending.  That window shows it
   * exactly unless 12 newer messages followed there, and no other frame or window ever shows it.
   */
  lemma ShownInItsWindowOnly(inputs: seq<Input>, g: string, n: nat, h: string, other: Place) returns (place: Place)
    requires Run(Start, inputs).Some? && DistinctIds(Run(Start, inputs).value) && n < |Of(Run(Start, inputs).value.arrivals, g)|
    ensures var t := Run(Start, inputs).value; HoldsMessage(t, g, n, place) && ShownOnlyThere(t, g, n, place, h, other)
  {
    StartIsInv();
    RunKeepsInv(Start, inputs);
    RunStaysNamed(Start, inputs);
    place := PlaceOf(Run(Start, inputs).value, g, n);
    OwnWindowShows(Run(Start, inputs).value, g, n, place);
    OnlyThere(Run(Start, inputs).value, g, n, place, h, other);
  }

  /** Shown by its window unless displaced there, and by no other. */
  predicate ShownOnlyThere(t: Trace, g: string, n: nat, place: Place, h: string, other: Place)
    requires HoldsMessage(t, g, n, place)
  {
    var id := Of(t.arrivals, g)[n].event;
    && (id in ShownIn(t, g, place) <==> StartsAt(t, g, place) + |MembersIn(t, g, place)| - n <= MAX_FOCUS_EVENTS)
    && (IsPlace(t, h, other) && id in ShownIn(t, h, other) ==> h == g && other == place)
  }

  lemma OwnWindowShows(t: Trace, g: string, n: nat, place: Place)
    requires Inv(t) && Named(t) && DistinctIds(t) && HoldsMessage(t, g, n, place)
    ensures Of(t.arrivals, g)[n].event in ShownIn(t, g, place) <==>
              StartsAt(t, g, place) + |MembersIn(t, g, place)| - n <= MAX_FOCUS_EVENTS
  {
    var members := MembersIn(t, g, place);
    var i: nat := n - StartsAt(t, g, place);
    WindowShows(t, g, place, i);
    assert members[i] == Of(t.arrivals, g)[n];
    assert |members| - i == StartsAt(t, g, place) + |members| - n;
  }

  lemma WindowShows(t: Trace, g: string, place: Place, i: nat)
    requires Inv(t) && Named(t) && DistinctIds(t) && IsPlace(t, g, place) && i < |MembersIn(t, g, place)|
    ensures MembersIn(t, g, place)[i].event in ShownIn(t, g, place) <==> |MembersIn(t, g, place)| - i <= MAX_FOCUS_EVENTS
  {
    assert GroupInv(t, g);
    MembersAreDistinct(t, g, place);
    ShownUnlessDisplaced(MembersIn(t, g, place), i);
    ViewOf(t, g, place);
  }

  lemma OnlyThere(t: Trace, g: string, n: nat, place: Place, h: string, other: Place)
    requires Inv(t) && DistinctIds(t) && HoldsMessage(t, g, n, place)
    ensures IsPlace(t, h, other) && Of(t.arrivals, g)[n].event in ShownIn(t, h, other) ==> h == g && other == place
  {
    if IsPlace(t, h, other) && Of(t.arrivals, g)[n].event in ShownIn(t, h, other) {
      ViewOf(t, h, other);
      var i := ShownIsMember(MembersIn(t, h, other), Of(t.arrivals, g)[n].event);
      assert GroupInv(t, h);
      MembersAreHistory(t, h, other, i);
      assert IsAt(t, g, n, h, StartsAt(t, h, other) + i);
      PlaceIsUnique(t, g, place, other, n);
    }
  }
}
