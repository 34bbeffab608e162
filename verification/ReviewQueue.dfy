/**
 * The review queue: focus points are split in time into a calibration and a holdout half, and
 * each gets as many points followed by a bot message as points followed by silence, with the
 * scene that leads to it.
 */
module ReviewQueue {
  import opened Basics
  import opened Sorting

  /**
   * `id` is the source message id, or the event id when there is none; `reference` tells that
   * the reference trigger policy matched, `clear` that the text stands by itself.
   */
  datatype Event = Event(
    id: string, message: bool, isSelf: bool, system: bool, recalled: bool, at: int, replyTo: string,
    mentionsBot: bool, evidenceOfBot: bool, reference: bool, clear: bool)

  type Events = seq<Event>

  predicate Ascending(v: seq<nat>) {
    forall i, j :: 0 <= i < j < |v| ==> v[i] < v[j]
  }

  // ---------------------------------------------------------------- focus points

  predicate Eligible(e: Event) {
    e.message && !e.isSelf && !e.system && !e.recalled
  }

  /** Eligible, and no earlier eligible event has the same id. */
  ghost predicate IsFocus(events: Events, i: nat) {
    && i < |events| && events[i].message && !events[i].isSelf && !events[i].system && !events[i].recalled
    && forall j :: 0 <= j < i && Eligible(events[j]) ==> events[j].id != events[i].id
  }

  method ReviewFocusIndices(events: Events) returns (indices: seq<nat>)
    ensures Ascending(indices) && forall i: nat :: i in indices <==> IsFocus(events, i)
  {
    indices := [];
    var seen: set<string> := {};
    for i := 0 to |events|
      invariant Ascending(indices) && forall k: nat :: k in indices <==> k < i && IsFocus(events, k)
      invariant forall j :: 0 <= j < |indices| ==> indices[j] < i
      invariant forall id :: id in seen <==> exists j :: 0 <= j < i && Eligible(events[j]) && events[j].id == id
    {
      if events[i].id !in seen && Eligible(events[i]) {
        seen := seen + {events[i].id};
        indices := indices + [i];
      }
    }
  }

  // ---------------------------------------------------------------- what the bot did

  /** The event at i is outside the response window, or decides before it ends. */
  predicate Stops(events: Events, focus: nat, window: int, i: nat)
    requires focus < |events| && i < |events|
  {
    var delay := events[i].at - events[focus].at;
    delay > window || events[i].reference || (delay >= 0 && events[i].isSelf)
  }

  function Verdict(events: Events, focus: nat, window: int, i: nat): Option<bool>
    requires focus < |events| && i < |events|
  {
    if events[i].at - events[focus].at > window then Some(false)
    else if events[i].reference then None
    else Some(true)
  }

  /** The first event that stops the search decides; without one the bot was silent. */
  ghost predicate FirstStop(events: Events, focus: nat, end: nat, window: int, i: nat)
    requires focus < |events| && end <= |events|
  {
    focus < i < end && EndsSearch(events, focus, window, i) && forall j :: focus < j < i ==> !EndsSearch(events, focus, window, j)
  }

  /** Too late, of the reference policy, or the bot's own and not from before the focus. */
  predicate EndsSearch(events: Events, focus: nat, window: int, i: nat)
    requires focus < |events| && i < |events|
  {
    if events[i].at > events[focus].at + window then true
    else if events[i].reference then true
    else events[i].isSelf && events[focus].at <= events[i].at
  }

  function ActionFrom(events: Events, focus: nat, end: nat, window: int, i: nat): Option<bool>
    requires focus < |events| && end <= |events|
    decreases end - i
  {
    if i >= end then Some(false)
    else if Stops(events, focus, window, i) then Verdict(events, focus, window, i)
    else ActionFrom(events, focus, end, window, i + 1)
  }

  function HistoricalAction(events: Events, focus: nat, end: nat, window: int): Option<bool>
    requires focus < |events| && end <= |events|
  {
    ActionFrom(events, focus, end, window, focus + 1)
  }

  lemma {:induction false} ActionFromFirstStop(events: Events, focus: nat, end: nat, window: int, i: nat)
    requires focus < i && focus < |events| && end <= |events|
    requires forall j :: focus < j < i && j < end ==> !Stops(events, focus, window, j)
    ensures match ActionFrom(events, focus, end, window, i)
            case None => exists k :: FirstStop(events, focus, end, window, k) && Verdict(events, focus, window, k) == None
            case Some(acted) =>
              if acted then exists k :: FirstStop(events, focus, end, window, k) && Verdict(events, focus, window, k) == Some(true)
              else forall k :: FirstStop(events, focus, end, window, k) ==> Verdict(events, focus, window, k) == Some(false)
    decreases end - i
  {
    forall j | focus < j < end ensures EndsSearch(events, focus, window, j) <==> Stops(events, focus, window, j) {
    }
    if i < end {
      if Stops(events, focus, window, i) {
        assert FirstStop(events, focus, end, window, i);
      } else {
        ActionFromFirstStop(events, focus, end, window, i + 1);
      }
    }
  }

  /** Whatever happens from `end` on cannot change the signal. */
  lemma {:induction false} SignalIgnoresLater(events: Events, other: Events, focus: nat, end: nat, window: int, i: nat)
    requires focus < i && focus < end <= |events| && end <= |other| && events[..end] == other[..end]
    ensures ActionFrom(events, focus, end, window, i) == ActionFrom(other, focus, end, window, i)
    decreases end - i
  {
    if i < end {
      assert events[i] == events[..end][i] == other[i] && events[focus] == events[..end][focus] == other[focus];
      SignalIgnoresLater(events, other, focus, end, window, i + 1);
    }
  }

  method HistoricalBotAction(events: Events, focus: nat, end: nat, window: int) returns (r: Option<bool>)
    requires focus < |events| && end <= |events|
    ensures r == HistoricalAction(events, focus, end, window)
  {
    var i := focus + 1;
    while i < end
      invariant focus < i && HistoricalAction(events, focus, end, window) == ActionFrom(events, focus, end, window, i)
      decreases end - i
    {
      var delay := events[i].at - events[focus].at;
      if delay > window {
        break;
      }
      if events[i].reference {
        return None;
      }
      if delay >= 0 && events[i].isSelf {
        return Some(true);
      }
      i := i + 1;
    }
    r := Some(false);
  }

  // ---------------------------------------------------------------- scenes

  function HardStart(focus: nat, splitStart: nat, size: nat): nat {
    if focus + 1 < splitStart + size then splitStart else focus + 1 - size
  }

  /** No gap between neighbours in [start..focus] exceeds the limit. */
  ghost predicate Unbroken(events: Events, start: nat, focus: nat, gap: int) {
    focus < |events| && forall i :: start < i <= focus ==> events[i].at - events[i - 1].at <= gap
  }

  /** The longest unbroken scene that stays within the hard start. */
  ghost predicate LongestScene(events: Events, start: nat, hard: nat, focus: nat, gap: int) {
    && hard <= start <= focus && Unbroken(events, start, focus, gap)
    && (start > hard ==> events[start].at - events[start - 1].at > gap)
  }

  /** The latest event before the focus that it replies to, if it lies within the hard start. */
  ghost predicate ReplyTarget(events: Events, hard: nat, focus: nat, k: nat) {
    && focus < |events| && hard <= k < focus && events[k].id == events[focus].replyTo
    && forall j :: k < j < focus ==> events[j].id != events[focus].replyTo
  }

  method SceneContextStart(events: Events, focus: nat, splitStart: nat, size: nat, gap: int) returns (start: nat, ghost scene: nat)
    requires focus < |events| && splitStart <= focus && size > 0
    ensures var hard := HardStart(focus, splitStart, size);
            && hard <= start <= scene <= focus && LongestScene(events, scene, hard, focus, gap)
            && (start == scene || ReplyTarget(events, hard, focus, start))
            && (events[focus].replyTo != "" ==> forall k :: ReplyTarget(events, hard, focus, k) ==> start <= k)
    ensures splitStart <= start && focus - start < size
    ensures HardStart(focus, splitStart, size) == splitStart || HardStart(focus, splitStart, size) + size == focus + 1
  {
    var hard := HardStart(focus, splitStart, size);
    start := focus;
    while start > hard
      invariant hard <= start <= focus && Unbroken(events, start, focus, gap)
    {
      if events[start].at - events[start - 1].at > gap {
        break;
      }
      start := start - 1;
    }
    scene := start;
    if events[focus].replyTo != "" {
      var k := focus;
      while k > hard
        invariant hard <= k <= focus && forall j :: k <= j < focus ==> events[j].id != events[focus].replyTo
      {
        k := k - 1;
        if events[k].id == events[focus].replyTo {
          assert ReplyTarget(events, hard, focus, k);
          start := if k < start then k else start;
          break;
        }
      }
    }
  }

  // ---------------------------------------------------------------- spreading

  function At(n: nat, count: nat, position: nat): nat
    requires count > 1 && n > 0
  {
    (position * (n - 1)) / (count - 1)
  }

  lemma StepAtLeastOne(a: nat, b: nat, d: nat)
    requires d > 0 && a + d <= b
    ensures a / d < b / d
  {
    assert b == (b / d) * d + b % d;
    assert a == (a / d) * d + a % d;
    if b / d < a / d {
      TimesAscends(b / d, a / d, d);
    }
  }

  lemma {:induction false} SpreadAscends(n: nat, count: nat, p: nat, q: nat)
    requires 1 < count <= n && p < q
    ensures At(n, count, p) < At(n, count, q)
    decreases q
  {
    assert q * (n - 1) == (q - 1) * (n - 1) + (n - 1);
    StepAtLeastOne((q - 1) * (n - 1), q * (n - 1), count - 1);
    if p < q - 1 {
      SpreadAscends(n, count, p, q - 1);
    }
  }

  lemma ExactQuotient(m: nat, d: nat)
    requires d > 0
    ensures (d * m) / d == m
  {
    var n := d * m;
    assert n == m * d;
    Division(n, d, m, 0);
  }

  lemma SpreadReachesBothEnds(n: nat, count: nat)
    requires 1 < count && n > 0
    ensures At(n, count, 0) == 0 && At(n, count, count - 1) == n - 1
  {
    ExactQuotient(n - 1, count - 1);
  }

  /** `picked` are `count` values at even distances, the middle one if one is wanted. */
  ghost predicate IsSpread(values: seq<nat>, picked: seq<nat>, count: nat) {
    && 0 < count <= |values| && |picked| == count
    && forall p :: 0 <= p < count ==>
         var at := if count == 1 then |values| / 2 else At(|values|, count, p); at < |values| && picked[p] == values[at]
  }

  /** A spread of ascending values ascends, and reaches both ends as soon as two values are wanted. */
  lemma SpreadOf(values: seq<nat>, picked: seq<nat>, count: nat)
    requires IsSpread(values, picked, count) && Ascending(values)
    ensures Ascending(picked) && forall v :: v in picked ==> v in values
    ensures count > 1 ==> picked[0] == values[0] && picked[count - 1] == values[|values| - 1]
  {
    if count > 1 {
      SpreadReachesBothEnds(|values|, count);
      forall p: nat, q: nat | p < q < count ensures picked[p] < picked[q] {
        SpreadAscends(|values|, count, p, q);
      }
    }
  }

  /** Position `at` is the p-th of `count` even steps from the first of n values to the last, rounded down. */
  predicate IsEvenStep(n: nat, count: nat, p: nat, at: nat) {
    at * (count - 1) <= p * (n - 1) < (at + 1) * (count - 1)
  }

  lemma AtIsEven(n: nat, count: nat, p: nat)
    requires count > 1 && n > 0
    ensures IsEvenStep(n, count, p, At(n, count, p))
  {
    var x, d := p * (n - 1), count - 1;
    assert x == (x / d) * d + x % d;
  }

  /** The picks are evenly spaced; a single one is from the middle. */
  lemma SpreadIsEven(values: seq<nat>, picked: seq<nat>, count: nat, p: nat)
    requires IsSpread(values, picked, count) && p < count
    ensures exists at: nat :: at < |values| && picked[p] == values[at]
                              && if count == 1 then 2 * at <= |values| < 2 * at + 2 else IsEvenStep(|values|, count, p, at)
  {
    var at := if count == 1 then |values| / 2 else At(|values|, count, p);
    if count > 1 {
      AtIsEven(|values|, count, p);
    }
    assert at < |values| && picked[p] == values[at];
  }

  method EvenlySpaced(values: seq<nat>, count: nat) returns (r: Option<seq<nat>>)
    requires count > 0
    ensures r.None? <==> |values| < count
    ensures r.Some? ==> IsSpread(values, r.value, count)
  {
    if |values| < count {
      return None;
    }
    if count == 1 {
      return Some([values[|values| / 2]]);
    }
    var picked: seq<nat> := [];
    SpreadReachesBothEnds(|values|, count);
    for position := 0 to count
      invariant |picked| == position
      invariant forall p :: 0 <= p < position ==> At(|values|, count, p) < |values| && picked[p] == values[At(|values|, count, p)]
    {
      if position < count - 1 {
        SpreadAscends(|values|, count, position, count - 1);
      }
      picked := picked + [values[At(|values|, count, position)]];
    }
    r := Some(picked);
  }

  // ---------------------------------------------------------------- interactions with the bot

  /** The latest event with this id in [start, i) is the bot's own. */
  ghost predicate LatestIsSelf(events: Events, start: nat, i: nat, id: string)
    requires i <= |events|
  {
    exists j :: start <= j < i && events[j].id == id && events[j].isSelf && forall k :: j < k < i ==> events[k].id != id
  }

  ghost predicate Direct(events: Events, start: nat, i: nat)
    requires i < |events|
  {
    events[i].mentionsBot || events[i].evidenceOfBot || (events[i].replyTo != "" && LatestIsSelf(events, start, i, events[i].replyTo))
  }

  method DirectInteractions(events: Events, start: nat, end: nat) returns (direct: set<nat>)
    requires start <= end <= |events|
    ensures forall i: nat :: i in direct <==> start <= i < end && Direct(events, start, i)
  {
    direct := {};
    var isSelf: map<string, bool> := map[];
    for i := start to end
      invariant forall k: nat :: k in direct <==> start <= k < i && Direct(events, start, k)
      invariant forall id :: id in isSelf && isSelf[id] <==> LatestIsSelf(events, start, i, id)
    {
      var e := events[i];
      if e.mentionsBot || e.evidenceOfBot || (e.replyTo != "" && e.replyTo in isSelf && isSelf[e.replyTo]) {
        direct := direct + {i};
      }
      LatestIsSelfNext(events, start, i);
      isSelf := isSelf[e.id := e.isSelf];
    }
  }

  lemma LatestIsSelfNext(events: Events, start: nat, i: nat)
    requires start <= i < |events|
    ensures forall id :: LatestIsSelf(events, start, i + 1, id) <==>
              if id == events[i].id then events[i].isSelf else LatestIsSelf(events, start, i, id)
  {
    forall id | id != events[i].id && LatestIsSelf(events, start, i, id) ensures LatestIsSelf(events, start, i + 1, id) {
      var j :| start <= j < i && events[j].id == id && events[j].isSelf && forall k :: j < k < i ==> events[k].id != id;
      assert forall k :: j < k < i + 1 ==> events[k].id != id;
    }
    forall id | LatestIsSelf(events, start, i + 1, id)
      ensures if id == events[i].id then events[i].isSelf else LatestIsSelf(events, start, i, id)
    {
      var j :| start <= j < i + 1 && events[j].id == id && events[j].isSelf && forall k :: j < k < i + 1 ==> events[k].id != id;
      if id != events[i].id {
        assert j < i;
      }
    }
    if events[i].isSelf {
      assert LatestIsSelf(events, start, i + 1, events[i].id);
    }
  }

  // ---------------------------------------------------------------- the two halves

  datatype Signal = Acted | Silent

  datatype Profile = Broad | BootstrapClear

  datatype Entry = Entry(split: Split, signal: Signal, focus: nat, splitStart: nat)

  /** Whether a focus point carries the signal and the profile accepts it. */
  ghost predicate Carries(events: Events, start: nat, end: nat, window: int, profile: Profile, signal: Signal, i: nat)
    requires end <= |events|
  {
    && i < |events| && !events[i].reference
    && HistoricalAction(events, i, end, window) == Some(signal == Acted)
    && (profile == BootstrapClear ==>
          if signal == Acted then Direct(events, start, i) else !Direct(events, start, i) && events[i].clear)
  }

  /** Whether a point carries a signal does not depend on any event from the end of its half on. */
  lemma CarriesIgnoresLater(
    events: Events, other: Events, start: nat, end: nat, window: int, profile: Profile, signal: Signal, i: nat)
    requires start <= i < end <= |events| && end <= |other| && events[..end] == other[..end]
    ensures Carries(events, start, end, window, profile, signal, i) == Carries(other, start, end, window, profile, signal, i)
  {
    SignalIgnoresLater(events, other, i, end, window, i + 1);
    assert forall k :: 0 <= k < end ==> events[k] == events[..end][k] == other[k];
    LatestIsSelfAlike(events, other, start, i, events[i].replyTo);
    LatestIsSelfAlike(other, events, start, i, events[i].replyTo);
  }

  lemma LatestIsSelfAlike(events: Events, other: Events, start: nat, i: nat, id: string)
    requires i <= |events| && i <= |other| && forall k :: 0 <= k < i ==> events[k] == other[k]
    ensures LatestIsSelf(events, start, i, id) ==> LatestIsSelf(other, start, i, id)
  {
    if LatestIsSelf(events, start, i, id) {
      var j :| start <= j < i && events[j].id == id && events[j].isSelf && forall k :: j < k < i ==> events[k].id != id;
      assert other[j].id == id && other[j].isSelf && forall k :: j < k < i ==> other[k].id != id;
    }
  }

  method Sift(events: Events, start: nat, end: nat, candidates: seq<nat>, window: int, profile: Profile)
    returns (action: seq<nat>, silence: seq<nat>)
    requires start <= end <= |events| && Ascending(candidates) && forall i :: i in candidates ==> start <= i < end
    ensures Ascending(action) && Ascending(silence)
    ensures forall i :: i in action <==> i in candidates && Carries(events, start, end, window, profile, Acted, i)
    ensures forall i :: i in silence <==> i in candidates && Carries(events, start, end, window, profile, Silent, i)
  {
    action, silence := [], [];
    var direct := DirectInteractions(events, start, end);
    for n := 0 to |candidates|
      invariant Ascending(action) && Ascending(silence)
      invariant forall i :: i in action <==> i in candidates[..n] && Carries(events, start, end, window, profile, Acted, i)
      invariant forall i :: i in silence <==> i in candidates[..n] && Carries(events, start, end, window, profile, Silent, i)
    {
      var i := candidates[n];
      assert i in candidates;
      assert candidates[..n + 1] == candidates[..n] + [i];
      assert forall j :: j in candidates[..n] ==> j < i;
      if !events[i].reference {
        var acted := HistoricalBotAction(events, i, end, window);
        if acted == Some(true) && (profile == BootstrapClear ==> i in direct) {
          action := Appended(action, i);
        } else if acted == Some(false) && (profile == BootstrapClear ==> i !in direct && events[i].clear) {
          silence := Appended(silence, i);
        }
      }
    }
    assert candidates[..|candidates|] == candidates;
  }

  function Appended(v: seq<nat>, x: nat): (r: seq<nat>)
    requires Ascending(v) && forall y :: y in v ==> y < x
    ensures Ascending(r) && forall y :: y in r <==> y in v || y == x
  {
    assert forall i :: 0 <= i < |v| ==> v[i] in v;
    v + [x]
  }

  // ---------------------------------------------------------------- sorting the entries

  predicate Precedes(a: Entry, b: Entry) {
    || (a.split == Calibration && b.split == Holdout)
    || (a.split == b.split && (a.focus < b.focus || (a.focus == b.focus && a.signal == Acted && b.signal == Silent)))
  }

  lemma PrecedesIsKeyOrder()
    ensures IsKeyOrder(Precedes)
  {
  }

  /** Entries of the calibration half come first. */
  lemma {:induction false} InsertedAfter(first: seq<Entry>, rest: seq<Entry>, e: Entry)
    requires e.split == Holdout && forall a :: a in first ==> a.split == Calibration
    ensures Inserted(first + rest, e, Precedes) == first + Inserted(rest, e, Precedes)
  {
    if first != [] {
      assert first[0] in first;
      assert (first + rest)[1..] == first[1..] + rest;
      InsertedAfter(first[1..], rest, e);
    } else {
      assert first + rest == rest;
    }
  }

  lemma {:induction false} SortedSplits(calibration: seq<Entry>, holdout: seq<Entry>)
    requires (forall a :: a in calibration ==> a.split == Calibration) && forall b :: b in holdout ==> b.split == Holdout
    ensures Sorted(calibration + holdout, Precedes) == Sorted(calibration, Precedes) + Sorted(holdout, Precedes)
    decreases |holdout|
  {
    PrecedesIsKeyOrder();
    if holdout == [] {
      assert calibration + holdout == calibration;
    } else {
      var rest := holdout[..|holdout| - 1];
      assert (calibration + holdout)[..|calibration + holdout| - 1] == calibration + rest;
      SortedSplits(calibration, rest);
      forall a | a in Sorted(calibration, Precedes) ensures a.split == Calibration {
        SortedHas(calibration, Precedes, a);
      }
      assert holdout[|holdout| - 1] in holdout;
      InsertedAfter(Sorted(calibration, Precedes), Sorted(rest, Precedes), holdout[|holdout| - 1]);
    }
  }

  /** Entries of one half, in strictly ascending order of their focus. */
  predicate InFocusOrder(entries: seq<Entry>) {
    forall i, j :: 0 <= i < j < |entries| ==> entries[i].focus < entries[j].focus
  }

  predicate DistinctFoci(entries: seq<Entry>) {
    forall i, j :: 0 <= i < j < |entries| ==> entries[i].focus != entries[j].focus
  }

  lemma SortedInOrder(entries: seq<Entry>, split: Split)
    requires forall a :: a in entries ==> a.split == split
    requires DistinctFoci(entries)
    ensures InFocusOrder(Sorted(entries, Precedes))
  {
    PrecedesIsKeyOrder();
    SortedOf(entries, Precedes);
    var sorted := Sorted(entries, Precedes);
    forall i, j | 0 <= i < j < |sorted| ensures sorted[i].focus < sorted[j].focus {
      SortedHas(entries, Precedes, sorted[i]);
      SortedHas(entries, Precedes, sorted[j]);
      assert sorted[i] in sorted && sorted[j] in sorted && !Precedes(sorted[j], sorted[i]);
      if sorted[i].focus == sorted[j].focus {
        SameFocus(entries, sorted[i], sorted[j]);
        TwiceIn(sorted, i, j);
        OnceIn(entries, sorted[i]);
      }
    }
  }

  lemma SameFocus(entries: seq<Entry>, a: Entry, b: Entry)
    requires DistinctFoci(entries) && a in entries && b in entries && a.focus == b.focus
    ensures a == b
  {
  }

  /** The focus points that carry a signal, in order. */
  function Foci(entries: seq<Entry>, signal: Signal): seq<nat> {
    if entries == [] then []
    else
      var last := entries[|entries| - 1];
      Foci(entries[..|entries| - 1], signal) + if last.signal == signal then [last.focus] else []
  }

  lemma {:induction false} FociOf(entries: seq<Entry>, signal: Signal)
    requires InFocusOrder(entries)
    ensures Ascending(Foci(entries, signal))
    ensures forall v :: v in Foci(entries, signal) <==> exists e :: e in entries && e.signal == signal && e.focus == v
  {
    if entries != [] {
      var rest, last := entries[..|entries| - 1], entries[|entries| - 1];
      assert entries == rest + [last];
      FociOf(rest, signal);
      forall v | v in Foci(rest, signal) ensures v < last.focus {
        var e :| e in rest && e.signal == signal && e.focus == v;
        var i :| 0 <= i < |rest| && rest[i] == e;
        assert entries[i] == e;
      }
      if last.signal == signal {
        assert Foci(entries, signal) == Appended(Foci(rest, signal), last.focus);
      }
    }
  }

  lemma InitHas(a: seq<nat>)
    requires Ascending(a) && a != []
    ensures forall v :: v in a[..|a| - 1] <==> v in a && v != a[|a| - 1]
  {
    assert a == a[..|a| - 1] + [a[|a| - 1]];
  }

  lemma {:induction false} SameAscending(a: seq<nat>, b: seq<nat>)
    requires Ascending(a) && Ascending(b) && forall v :: v in a <==> v in b
    ensures a == b
  {
    assert (a != [] ==> a[|a| - 1] in b) && (b != [] ==> b[|b| - 1] in a);
    assert a != [] && b != [] ==> a[|a| - 1] == b[|b| - 1];
    if a != [] && b != [] {
      InitHas(a);
      InitHas(b);
      var x, y := a[..|a| - 1], b[..|b| - 1];
      forall v ensures v in x <==> v in y {
        assert v in x <==> v in a && v != a[|a| - 1];
        assert v in y <==> v in b && v != b[|b| - 1];
      }
      SameAscending(x, y);
    }
  }

  function Entries(split: Split, signal: Signal, foci: seq<nat>, start: nat): (r: seq<Entry>)
    ensures |r| == |foci| && forall i :: 0 <= i < |foci| ==> r[i] == Entry(split, signal, foci[i], start)
  {
    seq(|foci|, i requires 0 <= i < |foci| => Entry(split, signal, foci[i], start))
  }

  /** A half of the queue: as many points of each signal as asked for, spread over all that carry it. */
  ghost predicate IsHalf(entries: seq<Entry>, split: Split, action: seq<nat>, silence: seq<nat>, start: nat) {
    && |entries| == |action| + |silence| && InFocusOrder(entries)
    && (forall e :: e in entries ==>
          e.split == split && e.splitStart == start && e.focus in (if e.signal == Acted then action else silence))
    && Foci(entries, Acted) == action && Foci(entries, Silent) == silence
  }

  lemma HalfOf(split: Split, action: seq<nat>, silence: seq<nat>, start: nat)
    requires Ascending(action) && Ascending(silence) && forall v :: !(v in action && v in silence)
    ensures var entries := Entries(split, Acted, action, start) + Entries(split, Silent, silence, start);
            IsHalf(Sorted(entries, Precedes), split, action, silence, start)
  {
    var entries := Entries(split, Acted, action, start) + Entries(split, Silent, silence, start);
    PrecedesIsKeyOrder();
    SortedOf(entries, Precedes);
    forall e ensures e in Sorted(entries, Precedes) <==> e in entries {
      SortedHas(entries, Precedes, e);
    }
    forall i, j | 0 <= i < j < |entries| ensures entries[i].focus != entries[j].focus {
      if i < |action| <= j {
        assert action[i] in action && silence[j - |action|] in silence;
      }
    }
    EntriesHave(split, action, silence, start);
    SortedInOrder(entries, split);
    FociOf(Sorted(entries, Precedes), Acted);
    FociOf(Sorted(entries, Precedes), Silent);
    SameAscending(Foci(Sorted(entries, Precedes), Acted), action);
    SameAscending(Foci(Sorted(entries, Precedes), Silent), silence);
  }

  lemma EntriesHave(split: Split, action: seq<nat>, silence: seq<nat>, start: nat)
    ensures var entries := Entries(split, Acted, action, start) + Entries(split, Silent, silence, start);
            && (forall e :: e in entries ==>
                  e.split == split && e.splitStart == start && e.focus in (if e.signal == Acted then action else silence))
            && (forall v :: v in action ==> Entry(split, Acted, v, start) in entries)
            && (forall v :: v in silence ==> Entry(split, Silent, v, start) in entries)
  {
    var entries := Entries(split, Acted, action, start) + Entries(split, Silent, silence, start);
    forall v | v in action ensures Entry(split, Acted, v, start) in entries {
      var i :| 0 <= i < |action| && action[i] == v;
      assert entries[i] == Entry(split, Acted, v, start);
    }
    forall v | v in silence ensures Entry(split, Silent, v, start) in entries {
      var i :| 0 <= i < |silence| && silence[i] == v;
      assert entries[|action| + i] == Entry(split, Silent, v, start);
    }
  }

  // ---------------------------------------------------------------- the queue

  datatype Scene = Scene(entry: Entry, start: nat)

  datatype Error = InvalidArgument | NotEnough

  /** All focus points of the range that carry the signal. */
  ghost predicate AllCarriers(
    events: Events, all: seq<nat>, signal: Signal, start: nat, end: nat, window: int, profile: Profile)
    requires end <= |events|
  {
    && Ascending(all)
    && forall i: nat :: i in all <==>
         start <= i < end && IsFocus(events, i) && Carries(events, start, end, window, profile, signal, i)
  }

  /** A half of the queue in order: for each signal, a spread of all focus points of the range that carry it. */
  ghost predicate GoodHalf(
    events: Events, half: seq<Entry>, split: Split, start: nat, end: nat, count: nat, window: int, profile: Profile)
    requires end <= |events|
  {
    && |half| == 2 * count && InFocusOrder(half)
    && (forall e :: e in half ==> e.split == split && e.splitStart == start && start <= e.focus < end)
    && SpreadsCarriers(events, half, Acted, start, end, count, window, profile)
    && SpreadsCarriers(events, half, Silent, start, end, count, window, profile)
  }

  ghost predicate SpreadsCarriers(
    events: Events, half: seq<Entry>, signal: Signal, start: nat, end: nat, count: nat, window: int, profile: Profile)
    requires end <= |events|
  {
    exists all :: AllCarriers(events, all, signal, start, end, window, profile) && IsSpread(all, Foci(half, signal), count)
  }

  lemma HalfIsGood(
    events: Events, split: Split, start: nat, end: nat, acted: seq<nat>, silent: seq<nat>, action: seq<nat>, silence: seq<nat>,
    count: nat, window: int, profile: Profile)
    requires start <= end <= |events|
    requires AllCarriers(events, acted, Acted, start, end, window, profile) && IsSpread(acted, action, count)
    requires AllCarriers(events, silent, Silent, start, end, window, profile) && IsSpread(silent, silence, count)
    ensures var entries := Entries(split, Acted, action, start) + Entries(split, Silent, silence, start);
            && (forall e :: e in entries ==> e.split == split)
            && GoodHalf(events, Sorted(entries, Precedes), split, start, end, count, window, profile)
  {
    SpreadOf(acted, action, count);
    SpreadOf(silent, silence, count);
    HalfOf(split, action, silence, start);
    EntriesHave(split, action, silence, start);
  }

  method SelectHalf(
    events: Events, split: Split, start: nat, end: nat, candidates: seq<nat>, count: nat, window: int, profile: Profile)
    returns (r: Option<seq<Entry>>, ghost acted: seq<nat>, ghost silent: seq<nat>)
    requires start <= end <= |events| && count > 0
    requires Ascending(candidates) && forall i: nat :: i in candidates <==> start <= i < end && IsFocus(events, i)
    ensures AllCarriers(events, acted, Acted, start, end, window, profile)
    ensures AllCarriers(events, silent, Silent, start, end, window, profile)
    ensures r.None? <==> |acted| < count || |silent| < count
    ensures r.Some? ==> (forall e :: e in r.value ==> e.split == split)
    ensures r.Some? ==> GoodHalf(events, Sorted(r.value, Precedes), split, start, end, count, window, profile)
  {
    var all, none := Sift(events, start, end, candidates, window, profile);
    acted, silent := all, none;
    var action := EvenlySpaced(all, count);
    var silence := EvenlySpaced(none, count);
    if action.None? || silence.None? {
      return None, acted, silent;
    }
    HalfIsGood(events, split, start, end, all, none, action.value, silence.value, count, window, profile);
    r := Some(Entries(split, Acted, action.value, start) + Entries(split, Silent, silence.value, start));
  }

  /** The context of a scene ends at its focus, is bounded, and is a longest unbroken scene or starts at the reply target. */
  ghost predicate IsScene(events: Events, s: Scene, size: nat, gap: int) {
    var hard := HardStart(s.entry.focus, s.entry.splitStart, size);
    && s.entry.splitStart <= s.start <= s.entry.focus < |events| && s.entry.focus - s.start < size
    && (exists scene :: s.start <= scene && LongestScene(events, scene, hard, s.entry.focus, gap)
          && (s.start == scene || ReplyTarget(events, hard, s.entry.focus, s.start)))
    && (events[s.entry.focus].replyTo != "" ==> forall k :: ReplyTarget(events, hard, s.entry.focus, k) ==> s.start <= k)
  }

  method Scenes(events: Events, entries: seq<Entry>, size: nat, gap: int) returns (scenes: seq<Scene>)
    requires size > 0 && forall e :: e in entries ==> e.splitStart <= e.focus < |events|
    ensures |scenes| == |entries|
    ensures forall i :: 0 <= i < |scenes| ==> scenes[i].entry == entries[i] && IsScene(events, scenes[i], size, gap)
  {
    scenes := [];
    for i := 0 to |entries|
      invariant |scenes| == i
      invariant forall j :: 0 <= j < i ==> scenes[j].entry == entries[j] && IsScene(events, scenes[j], size, gap)
    {
      var start, scene := SceneContextStart(events, entries[i].focus, entries[i].splitStart, size, gap);
      scenes := scenes + [Scene(entries[i], start)];
    }
  }

  /** The parameters of a build; `boundary` is the focus point at which the holdout half begins. */
  datatype Build = Build(events: Events, count: nat, boundary: nat, size: nat, window: int, gap: int, profile: Profile)

  /** The scenes of a calibration half followed by those of a holdout half. */
  ghost predicate IsQueue(b: Build, first: seq<Entry>, second: seq<Entry>, scenes: seq<Scene>) {
    && b.boundary <= |b.events|
    && GoodHalf(b.events, first, Calibration, 0, b.boundary, b.count, b.window, b.profile)
    && GoodHalf(b.events, second, Holdout, b.boundary, |b.events|, b.count, b.window, b.profile)
    && |scenes| == |first| + |second|
    && (forall i :: 0 <= i < |scenes| ==> scenes[i].entry == (first + second)[i] && IsScene(b.events, scenes[i], b.size, b.gap))
  }

  /**
   * Focus points strictly ascend through the whole queue, the two halves are equally long, and
   * every calibration scene ends before any holdout scene begins: no event is in both.
   */
  lemma QueueDoesNotLeak(b: Build, first: seq<Entry>, second: seq<Entry>, scenes: seq<Scene>)
    requires IsQueue(b, first, second, scenes)
    ensures |scenes| == 4 * b.count
    ensures forall i :: 0 <= i < |scenes| ==> scenes[i].entry.split == if i < 2 * b.count then Calibration else Holdout
    ensures forall i, j :: 0 <= i < j < |scenes| ==> scenes[i].entry.focus < scenes[j].entry.focus
    ensures forall i, j :: 0 <= i < 2 * b.count <= j < |scenes| ==> scenes[i].entry.focus < b.boundary <= scenes[j].start
  {
    assert forall i :: 0 <= i < |first| ==> scenes[i].entry == first[i] && first[i] in first;
    assert forall i :: |first| <= i < |scenes| ==> scenes[i].entry == second[i - |first|] && second[i - |first|] in second;
  }

  /** Cutting the focus points in two cuts the events at the first point of the second part. */
  lemma FociSplit(events: Events, foci: seq<nat>, midpoint: nat)
    requires Ascending(foci) && midpoint < |foci| && forall i: nat :: i in foci <==> IsFocus(events, i)
    ensures IsFocus(events, foci[midpoint]) && foci[midpoint] < |events|
    ensures Ascending(foci[..midpoint]) && forall i: nat :: i in foci[..midpoint] <==> i < foci[midpoint] && IsFocus(events, i)
    ensures Ascending(foci[midpoint..])
    ensures forall i: nat :: i in foci[midpoint..] <==> foci[midpoint] <= i < |events| && IsFocus(events, i)
  {
    assert foci[midpoint] in foci;
    assert foci == foci[..midpoint] + foci[midpoint..];
  }

  ghost function FocusPoints(events: Events, from: nat, to: nat): set<nat> {
    set i: nat | from <= i < to && IsFocus(events, i)
  }

  ghost function Carriers(events: Events, signal: Signal, start: nat, end: nat, window: int, profile: Profile): set<nat>
    requires end <= |events|
  {
    set i: nat | start <= i < end && IsFocus(events, i) && Carries(events, start, end, window, profile, signal, i)
  }

  /** Half of the focus points, rounded down, lie before the boundary. */
  ghost predicate IsMedian(events: Events, boundary: nat) {
    IsFocus(events, boundary) && |FocusPoints(events, 0, boundary)| == |FocusPoints(events, 0, |events|)| / 2
  }

  /** Both halves have enough points of either signal. */
  ghost predicate Enough(events: Events, boundary: nat, count: nat, window: int, profile: Profile)
    requires boundary <= |events|
  {
    && |Carriers(events, Acted, 0, boundary, window, profile)| >= count
    && |Carriers(events, Silent, 0, boundary, window, profile)| >= count
    && |Carriers(events, Acted, boundary, |events|, window, profile)| >= count
    && |Carriers(events, Silent, boundary, |events|, window, profile)| >= count
  }

  lemma {:induction false} AscendingSize(v: seq<nat>, all: set<nat>)
    requires Ascending(v) && forall i :: i in v <==> i in all
    ensures |v| == |all|
  {
    if v == [] {
      assert all == {};
    } else {
      InitHas(v);
      AscendingSize(v[..|v| - 1], all - {v[|v| - 1]});
      assert v[|v| - 1] in v;
    }
  }

  lemma CarriersSize(events: Events, all: seq<nat>, signal: Signal, start: nat, end: nat, window: int, profile: Profile)
    requires end <= |events| && AllCarriers(events, all, signal, start, end, window, profile)
    ensures |Carriers(events, signal, start, end, window, profile)| == |all|
  {
    AscendingSize(all, Carriers(events, signal, start, end, window, profile));
  }

  lemma MedianOf(events: Events, foci: seq<nat>)
    requires Ascending(foci) && forall i: nat :: i in foci <==> IsFocus(events, i)
    ensures |FocusPoints(events, 0, |events|)| == |foci|
    ensures foci != [] ==> IsMedian(events, foci[|foci| / 2])
  {
    AscendingSize(foci, FocusPoints(events, 0, |events|));
    if foci != [] {
      var midpoint := |foci| / 2;
      FociSplit(events, foci, midpoint);
      AscendingSize(foci[..midpoint], FocusPoints(events, 0, foci[midpoint]));
    }
  }

  method BuildReviewQueue(events: Events, perSplit: int, size: int, window: int, gap: int, profile: Profile)
    returns (r: Result<seq<Scene>, Error>, ghost boundary: nat, ghost halves: (seq<Entry>, seq<Entry>))
    ensures r == Err(InvalidArgument) <==> perSplit <= 0 || perSplit % 2 != 0 || size <= 0 || window <= 0 || gap <= 0
    ensures r != Err(InvalidArgument) && |FocusPoints(events, 0, |events|)| >= 2 ==>
      && IsMedian(events, boundary)
      && (r == Err(NotEnough) <==> !Enough(events, boundary, perSplit / 2, window, profile))
    ensures r != Err(InvalidArgument) && |FocusPoints(events, 0, |events|)| < 2 ==> r == Err(NotEnough)
    ensures r.Ok? ==> |r.value| == 2 * perSplit && IsMedian(events, boundary)
    ensures r.Ok? ==> IsQueue(Build(events, perSplit / 2, boundary, size, window, gap, profile), halves.0, halves.1, r.value)
  {
    boundary, halves := 0, ([], []);
    if perSplit <= 0 || perSplit % 2 != 0 || size <= 0 || window <= 0 || gap <= 0 {
      return Err(InvalidArgument), boundary, halves;
    }
    var foci := ReviewFocusIndices(events);
    MedianOf(events, foci);
    var midpoint := |foci| / 2;
    if midpoint == 0 {
      return Err(NotEnough), boundary, halves;
    }
    var split := foci[midpoint];
    boundary := split;
    var entries;
    entries, halves := SelectBoth(events, foci, midpoint, perSplit / 2, window, profile);
    if entries.None? {
      return Err(NotEnough), boundary, halves;
    }
    assert forall e :: e in halves.0 + halves.1 ==> e in halves.0 || e in halves.1;
    var scenes := Scenes(events, Sorted(entries.value, Precedes), size, gap);
    r := Ok(scenes);
  }

  method SelectBoth(events: Events, foci: seq<nat>, midpoint: nat, count: nat, window: int, profile: Profile)
    returns (r: Option<seq<Entry>>, ghost halves: (seq<Entry>, seq<Entry>))
    requires Ascending(foci) && 0 < midpoint < |foci| && count > 0 && forall i: nat :: i in foci <==> IsFocus(events, i)
    ensures foci[midpoint] <= |events|
    ensures r.None? <==> !Enough(events, foci[midpoint], count, window, profile)
    ensures r.Some? ==> Sorted(r.value, Precedes) == halves.0 + halves.1
    ensures r.Some? ==> GoodHalf(events, halves.0, Calibration, 0, foci[midpoint], count, window, profile)
    ensures r.Some? ==> GoodHalf(events, halves.1, Holdout, foci[midpoint], |events|, count, window, profile)
  {
    var split := foci[midpoint];
    halves := ([], []);
    FociSplit(events, foci, midpoint);
    var calibration, actedC, silentC := SelectHalf(events, Calibration, 0, split, foci[..midpoint], count, window, profile);
    var holdout, actedH, silentH := SelectHalf(events, Holdout, split, |events|, foci[midpoint..], count, window, profile);
    CarriersSize(events, actedC, Acted, 0, split, window, profile);
    CarriersSize(events, silentC, Silent, 0, split, window, profile);
    CarriersSize(events, actedH, Acted, split, |events|, window, profile);
    CarriersSize(events, silentH, Silent, split, |events|, window, profile);
    if calibration.None? || holdout.None? {
      return None, halves;
    }
    halves := (Sorted(calibration.value, Precedes), Sorted(holdout.value, Precedes));
    SortedSplits(calibration.value, holdout.value);
    r := Some(calibration.value + holdout.value);
  }
}
