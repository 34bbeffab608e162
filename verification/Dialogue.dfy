/**
 * Reading a dialogue for generation: the session around the focus, the turns that matter most,
 * and one text budget shared by all of them.
 *
 * Events become canonical turns first: own output as the outbox confirmed it instead of its echo, one turn per
 * event id, and replies resolved to event ids.
 */
module Dialogue {
  import opened Basics
  import opened Sorting

  const SESSION_GAP := 300
  const MAX_CONTEXT_EVENTS := 16
  const MAX_CHARS := 2400
  const TURN_CHARS := 800
  const RESERVED_CHARS := 80

  /** `order` is the position of the event in the inbox; an empty reply means none. */
  datatype Turn = Turn(id: string, actor: string, target: string, replyTo: string, isSelf: bool, at: nat, text: string, order: nat)

  type Turns = seq<Turn>

  ghost predicate DistinctTurns(turns: Turns) {
    forall i, j :: 0 <= i < j < |turns| ==> turns[i].id != turns[j].id && turns[i].order != turns[j].order
  }

  // ---------------------------------------------------------------- the canonical turns

  /** What the outbox holds for a sent part: its row and the receipt of the platform. */
  datatype SentRow = SentRow(isText: bool, text: string, receiptId: string, platformId: string, at: nat,
                             actor: string, target: string, anchor: string)

  datatype Kind = Message(eligible: bool, isSelf: bool, replyTo: string, target: string, text: string)
                | Sent(receiptId: string, row: Option<SentRow>)
                | Other

  /** An inbox event; an empty source, cause, reply or target means none. */
  datatype Event = Event(id: string, persona: string, group: string, source: string, actor: string, cause: string, at: nat, kind: Kind)

  /** A turn as it was met, with the id the platform knows it by. */
  datatype Sighting = Sighting(source: string, turn: Turn)

  type Sightings = seq<Sighting>

  function OrElse(a: string, b: string): string {
    if a == "" then b else a
  }

  /** Only an own text with a matching receipt of the platform counts as said; messages count unless excluded or own. */
  function SightingOf(e: Event, order: nat): Option<Sighting> {
    match e.kind
    case Sent(receiptId, Some(row)) =>
      if !row.isText || row.text == "" || row.receiptId != receiptId || row.platformId == "" then None
      else Some(Sighting(row.platformId, Turn(e.id, row.actor, row.target, OrElse(row.anchor, e.cause), true, row.at, row.text, order)))
    case Message(true, false, replyTo, target, text) =>
      Some(Sighting(e.source, Turn(e.id, e.actor, target, OrElse(replyTo, e.cause), false, e.at, text, order)))
    case _ => None
  }

  function Scoped(events: seq<Event>, persona: string, group: string): seq<Event> {
    if events == [] then []
    else
      var last := events[|events| - 1];
      Scoped(events[..|events| - 1], persona, group) + if last.persona == persona && last.group == group then [last] else []
  }

  function FirstWith(scoped: seq<Event>, id: string): nat {
    if scoped == [] || scoped[0].id == id then 0 else 1 + FirstWith(scoped[1..], id)
  }

  /** The turns among the first n events of the scope. */
  function Sighted(scoped: seq<Event>, n: nat): Sightings
    requires n <= |scoped|
  {
    if n == 0 then []
    else
      var sighting := SightingOf(scoped[n - 1], FirstWith(scoped, scoped[n - 1].id));
      Sighted(scoped, n - 1) + if sighting.Some? then [sighting.value] else []
  }

  function OwnSources(sightings: Sightings): set<string> {
    set s | s in sightings && s.turn.isSelf :: s.source
  }

  /** Own output as confirmed by the outbox replaces what the platform echoed. */
  function WithoutEchoes(sightings: Sightings, own: set<string>): Sightings {
    if sightings == [] then []
    else
      var last := sightings[|sightings| - 1];
      WithoutEchoes(sightings[..|sightings| - 1], own) + if last.turn.isSelf || last.source !in own then [last] else []
  }

  /** A later turn with the id of an earlier one takes its place. */
  function Put(turns: Turns, t: Turn): Turns {
    if turns == [] then [t]
    else if turns[0].id == t.id then [t] + turns[1..]
    else [turns[0]] + Put(turns[1..], t)
  }

  function ById(sightings: Sightings): Turns {
    if sightings == [] then [] else Put(ById(sightings[..|sightings| - 1]), sightings[|sightings| - 1].turn)
  }

  /** The event id of the latest turn that the platform knows by this name. */
  function Alias(sightings: Sightings, name: string): Option<string> {
    if sightings == [] || name == "" then None
    else if sightings[|sightings| - 1].source == name then Some(sightings[|sightings| - 1].turn.id)
    else Alias(sightings[..|sightings| - 1], name)
  }

  function Named(sightings: Sightings, parent: string): Option<string> {
    if "qq:" <= parent && Alias(sightings, parent[3..]).Some? then Alias(sightings, parent[3..]) else Alias(sightings, parent)
  }

  function Resolved(sightings: Sightings, t: Turn): Turn {
    match Named(sightings, t.replyTo)
    case Some(id) => t.(replyTo := id)
    case None => t
  }

  function Kept(scoped: seq<Event>): Sightings {
    var sightings := Sighted(scoped, |scoped|);
    WithoutEchoes(sightings, OwnSources(sightings))
  }

  function Canonical(scoped: seq<Event>): Turns {
    var kept := Kept(scoped);
    var turns := ById(kept);
    seq(|turns|, i requires 0 <= i < |turns| => Resolved(kept, turns[i]))
  }

  /** The loop over the events in scope collects the turns. */
  method Sight(scoped: seq<Event>) returns (sightings: Sightings)
    ensures sightings == Sighted(scoped, |scoped|)
  {
    sightings := [];
    for i := 0 to |scoped|
      invariant sightings == Sighted(scoped, i)
    {
      var sighting := SightingOf(scoped[i], FirstWith(scoped, scoped[i].id));
      if sighting.Some? {
        sightings := sightings + [sighting.value];
      }
    }
  }

  lemma {:induction false} FirstWithFinds(scoped: seq<Event>, i: nat)
    requires i < |scoped|
    ensures FirstWith(scoped, scoped[i].id) <= i && scoped[FirstWith(scoped, scoped[i].id)].id == scoped[i].id
    ensures forall j :: 0 <= j < FirstWith(scoped, scoped[i].id) ==> scoped[j].id != scoped[i].id
  {
    if scoped[0].id != scoped[i].id {
      assert scoped[1..][i - 1] == scoped[i];
      FirstWithFinds(scoped[1..], i - 1);
    }
  }

  predicate Placed(scoped: seq<Event>, t: Turn) {
    t.order < |scoped| && scoped[t.order].id == t.id && forall j :: 0 <= j < t.order ==> scoped[j].id != t.id
  }

  lemma {:induction false} ScopedOf(events: seq<Event>, persona: string, group: string, e: Event)
    ensures e in Scoped(events, persona, group) <==> e in events && e.persona == persona && e.group == group
  {
    if events != [] {
      assert events == events[..|events| - 1] + [events[|events| - 1]];
      ScopedOf(events[..|events| - 1], persona, group, e);
    }
  }

  /** Which events are turns: an eligible message of someone else, or a text of one's own that the platform has confirmed. */
  predicate IsTurn(e: Event) {
    match e.kind
    case Message(eligible, isSelf, _, _, _) => eligible && !isSelf
    case Sent(receiptId, row) => row.Some? && row.value.isText && row.value.text != "" && row.value.receiptId == receiptId && row.value.platformId != ""
    case Other => false
  }

  /** What a turn takes from its event, and own output from the outbox. */
  lemma SightingMeans(e: Event, order: nat)
    ensures SightingOf(e, order).Some? <==> IsTurn(e)
    ensures IsTurn(e) ==>
              var s := SightingOf(e, order).value;
              && s.turn.id == e.id && s.turn.order == order && (s.turn.isSelf <==> e.kind.Sent?)
              && if e.kind.Sent? then
                   var row := e.kind.row.value;
                   && s.source == row.platformId && s.turn.actor == row.actor && s.turn.target == row.target
                   && s.turn.at == row.at && s.turn.text == row.text
                   && s.turn.replyTo == (if row.anchor != "" then row.anchor else e.cause)
                 else
                   && s.source == e.source && s.turn.actor == e.actor && s.turn.target == e.kind.target
                   && s.turn.at == e.at && s.turn.text == e.kind.text
                   && s.turn.replyTo == (if e.kind.replyTo != "" then e.kind.replyTo else e.cause)
  {
  }

  ghost predicate IsSightingOf(scoped: seq<Event>, i: nat, s: Sighting) {
    i < |scoped| && SightingOf(scoped[i], FirstWith(scoped, scoped[i].id)) == Some(s)
  }

  lemma {:induction false} SightedOf(scoped: seq<Event>, n: nat, s: Sighting)
    requires n <= |scoped|
    ensures s in Sighted(scoped, n) <==> exists i: nat :: i < n && IsSightingOf(scoped, i, s)
  {
    if n > 0 {
      SightedOf(scoped, n - 1, s);
      assert IsSightingOf(scoped, n - 1, s) <==> SightingOf(scoped[n - 1], FirstWith(scoped, scoped[n - 1].id)) == Some(s);
    }
  }

  /** Every canonical turn comes from an event of the persona and the group. */
  lemma CanonicalIsInScope(events: seq<Event>, persona: string, group: string, t: Turn)
    requires t in Canonical(Scoped(events, persona, group))
    ensures exists e :: e in events && e.persona == persona && e.group == group && e.id == t.id && IsTurn(e)
  {
    var scoped := Scoped(events, persona, group);
    var s := KeptBehind(scoped, t);
    KeptOf(scoped);
    SightedOf(scoped, |scoped|, s);
    var i: nat :| i < |scoped| && IsSightingOf(scoped, i, s);
    SightingMeans(scoped[i], FirstWith(scoped, scoped[i].id));
    ScopedOf(events, persona, group, scoped[i]);
  }

  lemma {:induction false} SightedPlaced(scoped: seq<Event>, n: nat)
    requires n <= |scoped|
    ensures forall s :: s in Sighted(scoped, n) ==> Placed(scoped, s.turn) && (s.turn.isSelf ==> s.source != "")
  {
    if n > 0 {
      SightedPlaced(scoped, n - 1);
      FirstWithFinds(scoped, n - 1);
    }
  }

  lemma {:induction false} WithoutEchoesOf(sightings: Sightings, own: set<string>)
    ensures forall s :: s in WithoutEchoes(sightings, own) <==> s in sightings && (s.turn.isSelf || s.source !in own)
  {
    if sightings != [] {
      var rest := sightings[..|sightings| - 1];
      assert sightings == rest + [sightings[|sightings| - 1]];
      WithoutEchoesOf(rest, own);
    }
  }

  ghost predicate DistinctIds(turns: Turns) {
    forall i, j :: 0 <= i < j < |turns| ==> turns[i].id != turns[j].id
  }

  lemma {:induction false} PutOf(turns: Turns, t: Turn)
    requires DistinctIds(turns)
    ensures DistinctIds(Put(turns, t))
    ensures forall u :: u in Put(turns, t) <==> u == t || (u in turns && u.id != t.id)
  {
    if turns != [] {
      assert turns == [turns[0]] + turns[1..];
      if turns[0].id != t.id {
        PutOf(turns[1..], t);
        forall u | u in Put(turns[1..], t) ensures u.id != turns[0].id {
        }
      }
    }
  }

  /** No sighting after the one at i has its id. */
  ghost predicate IsLast(sightings: Sightings, i: nat) {
    i < |sightings| && forall j :: i < j < |sightings| ==> sightings[j].turn.id != sightings[i].turn.id
  }

  ghost predicate IsLastTurn(sightings: Sightings, t: Turn) {
    exists i: nat :: IsLast(sightings, i) && sightings[i].turn == t
  }

  lemma LastTurnsOf(sightings: Sightings, last: Sighting, t: Turn)
    ensures IsLastTurn(sightings + [last], t) <==> t == last.turn || (IsLastTurn(sightings, t) && t.id != last.turn.id)
  {
    var longer := sightings + [last];
    assert IsLast(longer, |sightings|) && longer[|sightings|] == last;
    forall i: nat | i < |sightings| ensures IsLast(longer, i) <==> IsLast(sightings, i) && sightings[i].turn.id != last.turn.id {
      assert longer[i] == sightings[i];
      if IsLast(longer, i) {
        forall j | i < j < |sightings| ensures sightings[j].turn.id != sightings[i].turn.id {
          assert longer[j] == sightings[j];
        }
      }
    }
    if i: nat :| IsLast(sightings, i) && sightings[i].turn == t && t.id != last.turn.id {
      assert IsLast(longer, i) && longer[i].turn == t;
    }
  }

  /** One turn for each id: the last one that was met. */
  lemma {:induction false} ByIdOf(sightings: Sightings)
    ensures DistinctIds(ById(sightings))
    ensures forall t :: t in ById(sightings) <==> IsLastTurn(sightings, t)
  {
    if sightings != [] {
      var rest, last := sightings[..|sightings| - 1], sightings[|sightings| - 1];
      assert sightings == rest + [last];
      ByIdOf(rest);
      PutOf(ById(rest), last.turn);
      forall t ensures t in ById(sightings) <==> IsLastTurn(sightings, t) {
        LastTurnsOf(rest, last, t);
      }
    }
  }

  lemma {:induction false} AliasOf(sightings: Sightings, name: string)
    ensures Alias(sightings, name).Some? <==> name != "" && exists s :: s in sightings && s.source == name
    ensures Alias(sightings, name).Some? ==> exists s :: s in sightings && s.source == name && s.turn.id == Alias(sightings, name).value
  {
    if sightings != [] {
      var rest, last := sightings[..|sightings| - 1], sightings[|sightings| - 1];
      assert sightings == rest + [last];
      assert last in sightings;
      AliasOf(rest, name);
    }
  }

  /** The canonical turns have one turn per event id and follow the first event of each. */
  lemma CanonicalIsDistinct(scoped: seq<Event>)
    ensures DistinctTurns(Canonical(scoped))
  {
    var turns := ById(Kept(scoped));
    KeptOf(scoped);
    ByIdOf(Kept(scoped));
    SightedPlaced(scoped, |scoped|);
    forall i, j | 0 <= i < j < |turns| ensures turns[i].id != turns[j].id && turns[i].order != turns[j].order {
      assert turns[i] in turns && turns[j] in turns;
    }
  }

  lemma KeptOf(scoped: seq<Event>)
    ensures forall s :: s in Kept(scoped) <==>
              s in Sighted(scoped, |scoped|) && (s.turn.isSelf || s.source !in OwnSources(Sighted(scoped, |scoped|)))
  {
    WithoutEchoesOf(Sighted(scoped, |scoped|), OwnSources(Sighted(scoped, |scoped|)));
  }

  /**
   * An event id is canonical exactly when one of its turns is no echo: own output always is, and no message that
   * carries the platform id of own output.
   */
  lemma OwnOutputIsCanonical(scoped: seq<Event>, id: string)
    ensures (exists t :: t in Canonical(scoped) && t.id == id) <==>
              exists s :: && s in Sighted(scoped, |scoped|) && s.turn.id == id
                          && (s.turn.isSelf || s.source !in OwnSources(Sighted(scoped, |scoped|)))
  {
    KeptOf(scoped);
    if t :| t in Canonical(scoped) && t.id == id {
      var s := KeptBehind(scoped, t);
    }
    if s :| s in Kept(scoped) && s.turn.id == id {
      KeptIsCanonical(scoped, s);
    }
  }

  lemma KeptBehind(scoped: seq<Event>, t: Turn) returns (s: Sighting)
    requires t in Canonical(scoped)
    ensures s in Kept(scoped) && s.turn.id == t.id
  {
    var kept := Kept(scoped);
    ByIdOf(kept);
    var k := Position(Canonical(scoped), t);
    assert ById(kept)[k] in ById(kept);
    var i: nat :| IsLast(kept, i) && kept[i].turn == ById(kept)[k];
    s := kept[i];
  }

  lemma KeptIsCanonical(scoped: seq<Event>, s: Sighting)
    requires s in Kept(scoped)
    ensures exists t :: t in Canonical(scoped) && t.id == s.turn.id
  {
    var kept := Kept(scoped);
    ByIdOf(kept);
    var i: nat :| i < |kept| && kept[i] == s;
    var j := LastWith(kept, i);
    var k := Position(ById(kept), kept[j].turn);
    assert Canonical(scoped)[k].id == s.turn.id && Canonical(scoped)[k] in Canonical(scoped);
  }

  lemma Position(turns: Turns, t: Turn) returns (k: nat)
    requires t in turns
    ensures k < |turns| && turns[k] == t
  {
    k :| k < |turns| && turns[k] == t;
  }

  lemma {:induction false} LastWith(sightings: Sightings, i: nat) returns (j: nat)
    requires i < |sightings|
    ensures IsLast(sightings, j) && sightings[j].turn.id == sightings[i].turn.id
    decreases |sightings| - i
  {
    j := i;
    if k: nat :| i < k < |sightings| && sightings[k].turn.id == sightings[i].turn.id {
      j := LastWith(sightings, k);
    }
  }

  /** The latest sighting under this name is of the turn `id`. */
  ghost predicate IsLatestNamed(sightings: Sightings, name: string, id: string) {
    exists i: nat :: i < |sightings| && sightings[i].source == name && sightings[i].turn.id == id
                     && forall j :: i < j < |sightings| ==> sightings[j].source != name
  }

  lemma {:induction false} AliasIsLatest(sightings: Sightings, name: string)
    requires Alias(sightings, name).Some?
    ensures IsLatestNamed(sightings, name, Alias(sightings, name).value)
  {
    var n := |sightings| - 1;
    if sightings[n].source != name {
      AliasIsLatest(sightings[..n], name);
      var i: nat :| i < n && sightings[..n][i].source == name && sightings[..n][i].turn.id == Alias(sightings, name).value
                    && forall j :: i < j < n ==> sightings[..n][j].source != name;
      forall j | i < j < |sightings| ensures sightings[j].source != name {
        assert j < n ==> sightings[..n][j] == sightings[j];
      }
      assert sightings[i] == sightings[..n][i];
    }
  }

  /** A name stands for the latest turn known by it; with the prefix the name behind it is tried first. */
  lemma NamedIsLatest(sightings: Sightings, parent: string)
    requires Named(sightings, parent).Some?
    ensures var id := Named(sightings, parent).value;
            if exists s :: s in sightings && s.source != "" && parent == "qq:" + s.source then IsLatestNamed(sightings, parent[3..], id)
            else IsLatestNamed(sightings, parent, id)
  {
    AliasOf(sightings, parent);
    if "qq:" <= parent {
      assert parent == "qq:" + parent[3..];
      AliasOf(sightings, parent[3..]);
      forall s | s in sightings && parent == "qq:" + s.source ensures s.source == parent[3..] {
      }
      if Alias(sightings, parent[3..]).Some? {
        AliasIsLatest(sightings, parent[3..]);
        var s :| s in sightings && s.source == parent[3..];
      }
    }
    if Alias(sightings, parent).Some? {
      AliasIsLatest(sightings, parent);
    }
  }

  ghost predicate Names(parent: string, s: Sighting) {
    s.source != "" && (parent == s.source || parent == "qq:" + s.source)
  }

  /** The last turn of an id is the canonical one, and its reply is a canonical turn that the name it gave stands for. */
  lemma RepliesReachTurns(scoped: seq<Event>, i: nat)
    requires IsLast(Kept(scoped), i)
    ensures var kept := Kept(scoped);
            var parent := kept[i].turn.replyTo;
            exists replyTo ::
              && kept[i].turn.(replyTo := replyTo) in Canonical(scoped)
              && if exists s :: s in kept && Names(parent, s)
                 then (exists s :: s in kept && Names(parent, s) && s.turn.id == replyTo)
                      && exists u :: u in Canonical(scoped) && u.id == replyTo
                 else replyTo == parent
  {
    var kept := Kept(scoped);
    var turns := ById(kept);
    var t := kept[i].turn;
    ByIdOf(kept);
    assert t in turns;
    var k :| 0 <= k < |turns| && turns[k] == t;
    assert Canonical(scoped)[k] == Resolved(kept, t) == t.(replyTo := Resolved(kept, t).replyTo);
    NamedOf(kept, t.replyTo);
    if Named(kept, t.replyTo).Some? {
      var s :| s in kept && Names(t.replyTo, s) && s.turn.id == Named(kept, t.replyTo).value;
      KeptIsCanonical(scoped, s);
    }
  }

  lemma NamedOf(sightings: Sightings, parent: string)
    ensures Named(sightings, parent).Some? <==> exists s :: s in sightings && Names(parent, s)
    ensures Named(sightings, parent).Some? ==>
              exists s :: s in sightings && Names(parent, s) && s.turn.id == Named(sightings, parent).value
  {
    AliasOf(sightings, parent);
    if "qq:" <= parent {
      assert parent == "qq:" + parent[3..];
      AliasOf(sightings, parent[3..]);
    }
    forall s | s in sightings && s.source != "" && parent == "qq:" + s.source ensures Named(sightings, parent).Some? {
      assert "qq:" <= parent && parent[3..] == s.source;
    }
  }

  /** Who answers own output by its platform id is taken to answer own output, never an echo of it. */
  lemma AnswersOwnOutput(scoped: seq<Event>, said: Sighting)
    requires said in Sighted(scoped, |scoped|) && said.turn.isSelf
    ensures var kept := Kept(scoped);
            && Named(kept, "qq:" + said.source).Some?
            && exists s :: s in kept && s.turn.isSelf && s.source == said.source && s.turn.id == Named(kept, "qq:" + said.source).value
  {
    var kept := Kept(scoped);
    var parent := "qq:" + said.source;
    KeptOf(scoped);
    SightedPlaced(scoped, |scoped|);
    AliasOf(kept, said.source);
    assert said in kept;
    assert "qq:" <= parent && parent[3..] == said.source;
    assert Named(kept, parent) == Alias(kept, said.source);
  }

  // ---------------------------------------------------------------- the session

  predicate Later(a: Turn, b: Turn) {
    a.at > b.at
  }

  function NewestFocus(turns: Turns, focus: set<string>): nat {
    if turns == [] then 0
    else
      var rest := NewestFocus(turns[..|turns| - 1], focus);
      var last := turns[|turns| - 1];
      if last.id in focus && last.at > rest then last.at else rest
  }

  /** The newest time of a focus turn, if there is one. */
  lemma {:induction false} NewestFocusIsNewest(turns: Turns, focus: set<string>)
    ensures forall t :: t in turns && t.id in focus ==> t.at <= NewestFocus(turns, focus)
    ensures NewestFocus(turns, focus) == 0 || exists t :: t in turns && t.id in focus && t.at == NewestFocus(turns, focus)
  {
    if turns != [] {
      var rest, last := turns[..|turns| - 1], turns[|turns| - 1];
      assert turns == rest + [last];
      NewestFocusIsNewest(rest, focus);
      assert last in turns;
    }
  }

  /** Some turn, or the newest focus itself, follows t within the session gap. */
  ghost predicate Followed(turns: Turns, newest: nat, t: Turn) {
    t.at >= newest - 300 || exists u :: u in turns && t.at < u.at <= newest && u.at - t.at <= 300
  }

  /** From t on, every turn up to the newest focus is followed without a gap. */
  ghost predicate InSession(turns: Turns, newest: nat, t: Turn) {
    t in turns && t.at <= newest && forall u :: u in turns && t.at <= u.at <= newest ==> Followed(turns, newest, u)
  }

  /** The scan over the turns, latest first, that stops at the first gap. */
  function Scanned(latestFirst: Turns, newest: nat, previous: nat): set<string> {
    if latestFirst == [] then {}
    else
      var t := latestFirst[0];
      if t.at > newest then Scanned(latestFirst[1..], newest, previous)
      else if previous - t.at > SESSION_GAP then {}
      else {t.id} + Scanned(latestFirst[1..], newest, t.at)
  }

  function Session(turns: Turns, focus: set<string>): set<string> {
    Scanned(Sorted(turns, Later), NewestFocus(turns, focus), NewestFocus(turns, focus))
  }

  method CurrentSession(turns: Turns, focus: set<string>) returns (ids: set<string>)
    ensures ids == Session(turns, focus)
  {
    var newest: nat := 0;
    for i := 0 to |turns|
      invariant newest == NewestFocus(turns[..i], focus)
    {
      assert turns[..i + 1][..i] == turns[..i];
      if turns[i].id in focus && turns[i].at > newest {
        newest := turns[i].at;
      }
    }
    assert turns[..|turns|] == turns;
    ids := {};
    var latestFirst := Sorted(turns, Later);
    var previous: nat := newest;
    var i: nat := 0;
    while i < |latestFirst|
      invariant i <= |latestFirst|
      invariant ids + Scanned(latestFirst[i..], newest, previous) == Scanned(latestFirst, newest, newest)
    {
      var t := latestFirst[i];
      assert latestFirst[i..][1..] == latestFirst[i + 1..];
      if t.at <= newest {
        if previous - t.at > SESSION_GAP {
          break;
        }
        ids := ids + {t.id};
        previous := t.at;
      }
      i := i + 1;
    }
  }

  lemma LaterIsKeyOrder()
    ensures IsKeyOrder(Later)
  {
  }

  function PreviousAt(sorted: Turns, i: nat, newest: nat): nat
    requires i <= |sorted|
  {
    if i > 0 && sorted[i - 1].at <= newest then sorted[i - 1].at else newest
  }

  /** Turn i of the list, latest first, is followed exactly when the gap to the one before is small. */
  lemma FollowedIff(sorted: Turns, i: nat, newest: nat)
    requires InOrder(sorted, Later) && i < |sorted| && sorted[i].at <= newest
    requires i > 0 && sorted[i - 1].at <= newest ==> Followed(sorted, newest, sorted[i - 1])
    ensures Followed(sorted, newest, sorted[i]) <==> PreviousAt(sorted, i, newest) - sorted[i].at <= SESSION_GAP
  {
    var t := sorted[i];
    if i > 0 {
      assert !Later(t, sorted[i - 1]);
    }
    if u :| u in sorted && t.at < u.at <= newest && u.at - t.at <= SESSION_GAP {
      var j :| 0 <= j < |sorted| && sorted[j] == u;
      assert i < j ==> !Later(sorted[j], sorted[i]);
      assert j < i - 1 ==> !Later(sorted[i - 1], sorted[j]);
    }
  }

  /** From turn i on, these are the ids of the session. */
  ghost predicate SessionFrom(sorted: Turns, i: nat, newest: nat, ids: set<string>) {
    && (forall k :: i <= k < |sorted| ==> (sorted[k].id in ids <==> InSession(sorted, newest, sorted[k])))
    && (forall id :: id in ids ==> exists k :: i <= k < |sorted| && sorted[k].id == id)
  }

  lemma SessionTakes(sorted: Turns, i: nat, newest: nat, ids: set<string>)
    requires DistinctTurns(sorted) && i < |sorted| && SessionFrom(sorted, i + 1, newest, ids) && InSession(sorted, newest, sorted[i])
    ensures SessionFrom(sorted, i, newest, {sorted[i].id} + ids)
  {
    forall id | id in {sorted[i].id} + ids ensures exists k :: i <= k < |sorted| && sorted[k].id == id {
      if id in ids {
        var k :| i + 1 <= k < |sorted| && sorted[k].id == id;
      }
    }
  }

  lemma SessionSkips(sorted: Turns, i: nat, newest: nat, ids: set<string>)
    requires DistinctTurns(sorted) && i < |sorted| && SessionFrom(sorted, i + 1, newest, ids) && !InSession(sorted, newest, sorted[i])
    ensures SessionFrom(sorted, i, newest, ids)
  {
    forall id | id in ids ensures exists k :: i <= k < |sorted| && sorted[k].id == id {
      var k :| i + 1 <= k < |sorted| && sorted[k].id == id;
    }
  }

  lemma {:induction false} ScannedOf(sorted: Turns, i: nat, newest: nat)
    requires InOrder(sorted, Later) && DistinctTurns(sorted) && i <= |sorted|
    requires forall j :: 0 <= j < i && sorted[j].at <= newest ==> Followed(sorted, newest, sorted[j])
    ensures SessionFrom(sorted, i, newest, Scanned(sorted[i..], newest, PreviousAt(sorted, i, newest)))
    decreases |sorted| - i
  {
    if i < |sorted| {
      if sorted[i].at > newest {
        ScannedSkips(sorted, i, newest);
        ScannedOf(sorted, i + 1, newest);
        SessionSkips(sorted, i, newest, Scanned(sorted[i + 1..], newest, PreviousAt(sorted, i + 1, newest)));
      } else {
        FollowedIff(sorted, i, newest);
        if PreviousAt(sorted, i, newest) - sorted[i].at > SESSION_GAP {
          NoneBehindGap(sorted, i, newest);
          assert sorted[i..][0] == sorted[i];
        } else {
          ScannedOf(sorted, i + 1, newest);
          EarlierFollowed(sorted, i, newest);
          ScannedHead(sorted, i, newest);
          SessionTakes(sorted, i, newest, Scanned(sorted[i + 1..], newest, PreviousAt(sorted, i + 1, newest)));
        }
      }
    }
  }

  lemma ScannedSkips(sorted: Turns, i: nat, newest: nat)
    requires InOrder(sorted, Later) && i < |sorted| && sorted[i].at > newest
    ensures Scanned(sorted[i..], newest, PreviousAt(sorted, i, newest))
            == Scanned(sorted[i + 1..], newest, PreviousAt(sorted, i + 1, newest))
  {
    assert sorted[i..][0] == sorted[i] && sorted[i..][1..] == sorted[i + 1..];
    if i > 0 {
      assert !Later(sorted[i], sorted[i - 1]);
    }
  }

  /** The scan takes turn i and goes on from it. */
  lemma ScannedHead(sorted: Turns, i: nat, newest: nat)
    requires i < |sorted| && sorted[i].at <= newest && PreviousAt(sorted, i, newest) - sorted[i].at <= SESSION_GAP
    ensures Scanned(sorted[i..], newest, PreviousAt(sorted, i, newest))
            == {sorted[i].id} + Scanned(sorted[i + 1..], newest, PreviousAt(sorted, i + 1, newest))
  {
    assert sorted[i..][0] == sorted[i] && sorted[i..][1..] == sorted[i + 1..];
  }

  /** Behind a gap nothing belongs to the session. */
  lemma NoneBehindGap(sorted: Turns, i: nat, newest: nat)
    requires InOrder(sorted, Later) && i < |sorted| && sorted[i].at <= newest && !Followed(sorted, newest, sorted[i])
    ensures forall k :: i <= k < |sorted| ==> !InSession(sorted, newest, sorted[k])
  {
    forall k | i <= k < |sorted| ensures !InSession(sorted, newest, sorted[k]) {
      assert k > i ==> !Later(sorted[k], sorted[i]);
      assert sorted[i] in sorted && sorted[k].at <= sorted[i].at <= newest;
    }
  }

  lemma EarlierFollowed(sorted: Turns, i: nat, newest: nat)
    requires InOrder(sorted, Later) && i < |sorted| && sorted[i].at <= newest
    requires forall j :: 0 <= j <= i && sorted[j].at <= newest ==> Followed(sorted, newest, sorted[j])
    ensures InSession(sorted, newest, sorted[i])
  {
    forall u | u in sorted && sorted[i].at <= u.at <= newest ensures Followed(sorted, newest, u) {
      var j :| 0 <= j < |sorted| && sorted[j] == u;
      if i < j {
        assert !Later(sorted[j], sorted[i]);
      }
    }
  }

  /** The session that the scan finds is the maximal run of turns that ends at the newest focus without a longer gap. */
  lemma SessionIsMaximalRun(turns: Turns, focus: set<string>, t: Turn)
    requires DistinctTurns(turns) && t in turns
    ensures t.id in Session(turns, focus) <==> InSession(turns, NewestFocus(turns, focus), t)
  {
    var newest := NewestFocus(turns, focus);
    var sorted := Sorted(turns, Later);
    LaterIsKeyOrder();
    SortedOf(turns, Later);
    SortedDistinct(turns);
    forall u ensures u in sorted <==> u in turns {
      SortedHas(turns, Later, u);
    }
    ScannedOf(sorted, 0, newest);
    assert sorted[0..] == sorted;
    forall u ensures Followed(sorted, newest, u) == Followed(turns, newest, u) {
    }
    var k :| 0 <= k < |sorted| && sorted[k] == t;
  }

  lemma SortedDistinct(turns: Turns)
    requires DistinctTurns(turns)
    ensures DistinctTurns(Sorted(turns, Later))
  {
    LaterIsKeyOrder();
    PermutedDistinct(turns, Sorted(turns, Later)) by {
      SortedOf(turns, Later);
    }
  }

  lemma PermutedDistinct(turns: Turns, permuted: Turns)
    requires DistinctTurns(turns) && multiset(permuted) == multiset(turns)
    ensures DistinctTurns(permuted)
  {
    forall i, j | 0 <= i < j < |permuted| ensures permuted[i].id != permuted[j].id && permuted[i].order != permuted[j].order {
      assert permuted[i] in multiset(permuted) && permuted[j] in multiset(permuted);
      assert permuted[i] in turns && permuted[j] in turns;
      if permuted[i] == permuted[j] {
        TwiceIn(permuted, i, j);
        OnceIn(turns, permuted[i]);
      }
    }
  }

  // ---------------------------------------------------------------- what matters most

  /** `first`: focus and required turns.  `second`: turns of the exchange with the bot. */
  datatype Priorities = Priorities(first: set<string>, second: set<string>, targets: set<string>)
  {
    function Rank(t: Turn): nat {
      if t.id in first then 0 else if t.id in second then 1 else if t.actor in targets then 2 else 3
    }

    predicate Ahead(a: Turn, b: Turn) {
      Rank(a) < Rank(b) || (Rank(a) == Rank(b) && a.at > b.at)
    }
  }

  /** The turns of a class of equal rank and time are ranked in the order in which they are given. */
  lemma TiesKeepOrder(relevant: Turns, p: Priorities, t: Turn)
    ensures var ties := (u: Turn) => p.Rank(u) == p.Rank(t) && u.at == t.at;
            Filter(Sorted(relevant, p.Ahead), ties) == Filter(relevant, ties)
  {
    AheadIsKeyOrder(p);
    SortedKeepsTies(relevant, p.Ahead, (u: Turn) => p.Rank(u) == p.Rank(t) && u.at == t.at);
  }

  lemma AheadIsKeyOrder(p: Priorities)
    ensures IsKeyOrder(p.Ahead)
  {
  }

  function Parents(turns: Turns, ids: set<string>): set<string> {
    set t | t in turns && t.id in ids && t.replyTo != "" :: t.replyTo
  }

  function Targets(turns: Turns, focus: set<string>): set<string> {
    set t | t in turns && t.id in focus :: t.actor
  }

  function Relevant(turns: Turns, wanted: set<string>): Turns {
    if turns == [] then []
    else
      var last := turns[|turns| - 1];
      Relevant(turns[..|turns| - 1], wanted) + if last.id in wanted then [last] else []
  }

  lemma {:induction false} RelevantOf(turns: Turns, wanted: set<string>)
    requires DistinctTurns(turns)
    ensures DistinctTurns(Relevant(turns, wanted))
    ensures forall t :: t in Relevant(turns, wanted) <==> t in turns && t.id in wanted
  {
    if turns != [] {
      var rest, last := turns[..|turns| - 1], turns[|turns| - 1];
      assert turns == rest + [last];
      RelevantOf(rest, wanted);
      forall t | t in Relevant(rest, wanted) ensures t.id != last.id && t.order != last.order {
        var i :| 0 <= i < |rest| && rest[i] == t;
        assert turns[i] == t;
      }
    }
  }

  function PrioritiesOf(turns: Turns, relevant: Turns, focus: set<string>, required: set<string>): Priorities {
    var parents := Parents(turns, focus);
    var targets := Targets(turns, focus);
    var botTurns := set t | t in relevant && t.isSelf && (t.target in targets || t.id in parents) :: t.id;
    Priorities(focus + required, parents + botTurns + Parents(relevant, botTurns), targets)
  }

  /** Some focus turn replies to this turn. */
  predicate AnsweredByFocus(turns: Turns, focus: set<string>, id: string) {
    id != "" && exists f :: f in turns && f.id in focus && f.replyTo == id
  }

  /** A turn of the bot spoken to a member of the focus, or answered by the focus. */
  predicate Addressed(turns: Turns, relevant: Turns, focus: set<string>, b: Turn) {
    b in relevant && b.isSelf && (AnsweredByFocus(turns, focus, b.id) || exists f :: f in turns && f.id in focus && f.actor == b.target)
  }

  /**
   * What comes first: the focus and the required turns; then what they answer, the bot's own turns to
   * them and what these answer; then what else the members of the focus said; then the rest.
   */
  lemma RanksMean(turns: Turns, relevant: Turns, focus: set<string>, required: set<string>, t: Turn)
    ensures PrioritiesOf(turns, relevant, focus, required).Rank(t) ==
            if t.id in focus || t.id in required then 0
            else if || AnsweredByFocus(turns, focus, t.id)
                    || (exists b :: Addressed(turns, relevant, focus, b) && b.id == t.id)
                    || (t.id != "" && exists b, c :: Addressed(turns, relevant, focus, b) && c in relevant && c.id == b.id && c.replyTo == t.id)
            then 1
            else if exists f :: f in turns && f.id in focus && f.actor == t.actor then 2 else 3
  {
    var parents := Parents(turns, focus);
    var targets := Targets(turns, focus);
    var botTurns := set b | b in relevant && b.isSelf && (b.target in targets || b.id in parents) :: b.id;
    assert forall id :: id in parents <==> AnsweredByFocus(turns, focus, id);
    assert forall a :: a in targets <==> exists f :: f in turns && f.id in focus && f.actor == a;
    assert forall id :: id in botTurns <==> exists b :: Addressed(turns, relevant, focus, b) && b.id == id;
  }

  function Best(relevant: Turns, p: Priorities): Turns {
    var ranked := Sorted(relevant, p.Ahead);
    if |ranked| <= MAX_CONTEXT_EVENTS then ranked else ranked[..MAX_CONTEXT_EVENTS]
  }

  /** The selection holds as many turns as fit, and none that was left out is ahead of one that was taken. */
  lemma BestOf(relevant: Turns, p: Priorities)
    requires DistinctTurns(relevant)
    ensures DistinctTurns(Best(relevant, p))
    ensures |Best(relevant, p)| == if |relevant| <= 16 then |relevant| else 16
    ensures forall t :: t in Best(relevant, p) ==> t in relevant
    ensures |relevant| <= 16 ==> forall t :: t in relevant ==> t in Best(relevant, p)
    ensures forall t, s :: t in relevant && t !in Best(relevant, p) && s in Best(relevant, p) ==>
              p.Rank(s) < p.Rank(t) || (p.Rank(s) == p.Rank(t) && s.at >= t.at)
  {
    var ranked := Sorted(relevant, p.Ahead);
    AheadIsKeyOrder(p);
    SortedOf(relevant, p.Ahead);
    PermutedDistinct(relevant, ranked);
    forall t ensures t in ranked <==> t in relevant {
      SortedHas(relevant, p.Ahead, t);
    }
    forall t, s | t in relevant && t !in Best(relevant, p) && s in Best(relevant, p) ensures !p.Ahead(t, s) {
      var i :| 0 <= i < |ranked| && ranked[i] == t;
      var j :| 0 <= j < |Best(relevant, p)| && Best(relevant, p)[j] == s;
      assert ranked[j] == s && i >= MAX_CONTEXT_EVENTS;
    }
  }

  /** As long as they fit at all, no focus or required turn is left out. */
  lemma FirstAreTaken(relevant: Turns, p: Priorities, t: Turn)
    requires DistinctTurns(relevant) && t in relevant && t.id in p.first
    requires |set u | u in relevant && u.id in p.first| <= MAX_CONTEXT_EVENTS
    ensures t in Best(relevant, p)
  {
    BestOf(relevant, p);
    if t !in Best(relevant, p) {
      var taken := set u | u in Best(relevant, p);
      var firsts := set u | u in relevant && u.id in p.first;
      SetOfDistinct(Best(relevant, p));
      forall u | u in taken ensures u in firsts - {t} {
        assert !p.Ahead(t, u);
      }
      assert |firsts - {t}| == |firsts| - 1;
      SubsetSize(taken, firsts - {t});
    }
  }

  lemma {:induction false} SetOfDistinct(turns: Turns)
    requires DistinctTurns(turns)
    ensures |set t | t in turns| == |turns|
  {
    if turns != [] {
      var rest, last := turns[..|turns| - 1], turns[|turns| - 1];
      assert turns == rest + [last];
      SetOfDistinct(rest);
      assert last !in rest;
      assert (set t | t in turns) == (set t | t in rest) + {last};
    }
  }

  // ---------------------------------------------------------------- the text budget

  function Least(a: int, b: int): int {
    if a < b then a else b
  }

  function Allowance(budget: int, remaining: nat): nat {
    var free := Least(TURN_CHARS, budget - RESERVED_CHARS * remaining);
    if free < 0 then 0 else free
  }

  function Cut(text: string, budget: int, remaining: nat): string {
    text[..Least(|text|, Allowance(budget, remaining))]
  }

  function Texts(ranked: Turns, budget: int): seq<string> {
    if ranked == [] then []
    else
      var text := Cut(ranked[0].text, budget, |ranked| - 1);
      [text] + Texts(ranked[1..], budget - |text|)
  }

  function Chars(texts: seq<string>): nat {
    if texts == [] then 0 else |texts[0]| + Chars(texts[1..])
  }

  /** Every text is a prefix of at most 800 characters, and all together stay within the budget. */
  lemma {:induction false} TextsFitBudget(ranked: Turns, budget: nat)
    ensures |Texts(ranked, budget)| == |ranked| && Chars(Texts(ranked, budget)) <= budget
    ensures forall i :: 0 <= i < |ranked| ==> Texts(ranked, budget)[i] <= ranked[i].text && |Texts(ranked, budget)[i]| <= 800
  {
    if ranked != [] {
      TextsFitBudget(ranked[1..], budget - |Cut(ranked[0].text, budget, |ranked| - 1)|);
    }
  }

  /** With 80 characters for each turn, no turn, however long and wherever it ranks, keeps another from its first 80. */
  lemma {:induction false} EveryTurnKeepsItsShare(ranked: Turns, budget: nat)
    requires budget >= 80 * |ranked|
    ensures |Texts(ranked, budget)| == |ranked|
    ensures forall i :: 0 <= i < |ranked| ==> |Texts(ranked, budget)[i]| >= Least(|ranked[i].text|, 80)
  {
    if ranked != [] {
      EveryTurnKeepsItsShare(ranked[1..], budget - |Cut(ranked[0].text, budget, |ranked| - 1)|);
    }
  }

  /** With the reader's own limits that is always so. */
  lemma DefaultBudgetIsEnough(relevant: Turns, p: Priorities)
    requires DistinctTurns(relevant)
    ensures var best := Best(relevant, p);
            && |Texts(best, 2400)| == |best|
            && forall i :: 0 <= i < |best| ==> |Texts(best, 2400)[i]| >= Least(|best[i].text|, 80)
  {
    BestOf(relevant, p);
    EveryTurnKeepsItsShare(Best(relevant, p), MAX_CHARS);
  }

  /** A turn is cut below 800 characters only when everything left is reserved for the turns after it. */
  lemma {:induction false} CutOnlyWhenSpent(ranked: Turns, budget: nat, i: nat)
    requires budget >= 80 * |ranked| && i < |ranked|
    ensures var texts := Texts(ranked, budget);
            && |texts| == |ranked|
            && (|texts[i]| < Least(|ranked[i].text|, 800) ==>
                  Chars(texts[..i + 1]) == budget - 80 * (|ranked| - i - 1))
  {
    var first := Cut(ranked[0].text, budget, |ranked| - 1);
    var texts := Texts(ranked, budget);
    if i == 0 {
      EveryTurnKeepsItsShare(ranked[1..], budget - |first|);
      assert texts[..1] == [first];
    } else {
      CutOnlyWhenSpent(ranked[1..], budget - |first|, i - 1);
      assert texts[..i + 1][0] == first && texts[..i + 1][1..] == Texts(ranked[1..], budget - |first|)[..i];
    }
  }

  // ---------------------------------------------------------------- reading

  datatype Shown = Shown(turn: Turn, text: string, current: bool)

  predicate Chronological(a: Shown, b: Shown) {
    a.turn.at < b.turn.at || (a.turn.at == b.turn.at && a.turn.order < b.turn.order)
  }

  function TotalChars(shown: seq<Shown>): nat {
    if shown == [] then 0 else |shown[0].text| + TotalChars(shown[1..])
  }

  lemma {:induction false} InsertedTotal(shown: seq<Shown>, x: Shown)
    ensures TotalChars(Inserted(shown, x, Chronological)) == TotalChars(shown) + |x.text|
  {
    if shown == [] || Chronological(x, shown[0]) {
      assert ([x] + shown)[1..] == shown;
    } else {
      InsertedTotal(shown[1..], x);
    }
  }

  lemma {:induction false} AppendedTotal(shown: seq<Shown>, x: Shown)
    ensures TotalChars(shown + [x]) == TotalChars(shown) + |x.text|
  {
    if shown == [] {
      assert shown + [x] == [x];
    } else {
      assert (shown + [x])[1..] == shown[1..] + [x];
      AppendedTotal(shown[1..], x);
    }
  }

  lemma {:induction false} SortedTotal(shown: seq<Shown>)
    ensures TotalChars(Sorted(shown, Chronological)) == TotalChars(shown)
  {
    if shown != [] {
      var rest, last := shown[..|shown| - 1], shown[|shown| - 1];
      SortedTotal(rest);
      InsertedTotal(Sorted(rest, Chronological), last);
      AppendedTotal(rest, last);
      assert shown == rest + [last];
    }
  }

  /** The turns of the session, the focus, the required ones, and those the focus replies to. */
  function Related(turns: Turns, focus: set<string>, required: set<string>): Turns {
    Relevant(turns, Session(turns, focus) + focus + required + Parents(turns, focus))
  }

  function Selection(turns: Turns, focus: set<string>, required: set<string>): Turns {
    var related := Related(turns, focus, required);
    Best(related, PrioritiesOf(turns, related, focus, required))
  }

  lemma RelatedOf(turns: Turns, focus: set<string>, required: set<string>)
    requires DistinctTurns(turns)
    ensures DistinctTurns(Related(turns, focus, required))
    ensures forall t :: t in Related(turns, focus, required) <==>
              && t in turns
              && (InSession(turns, NewestFocus(turns, focus), t) || t.id in focus || t.id in required || t.id in Parents(turns, focus))
  {
    RelevantOf(turns, Session(turns, focus) + focus + required + Parents(turns, focus));
    forall t | t in turns ensures t.id in Session(turns, focus) <==> InSession(turns, NewestFocus(turns, focus), t) {
      SessionIsMaximalRun(turns, focus, t);
    }
  }

  /** What the reader hands to generation. */
  ghost predicate IsReading(turns: Turns, focus: set<string>, required: set<string>, maxChars: nat, shown: seq<Shown>) {
    var best := Selection(turns, focus, required);
    && TotalChars(shown) <= maxChars && |shown| == |best|
    && (forall i, j :: 0 <= i < j < |shown| ==>
          || shown[i].turn.at < shown[j].turn.at
          || (shown[i].turn.at == shown[j].turn.at && shown[i].turn.order <= shown[j].turn.order))
    && (forall t :: t in best <==> exists s :: s in shown && s.turn == t)
    && forall s :: s in shown ==>
         && s.text <= s.turn.text && |s.text| <= TURN_CHARS
         && (maxChars >= RESERVED_CHARS * |best| ==> |s.text| >= Least(|s.turn.text|, RESERVED_CHARS))
         && (s.current <==> InSession(turns, NewestFocus(turns, focus), s.turn))
  }

  /** The selected turns with the texts the budget leaves them. */
  method Fill(ranked: Turns, session: set<string>, maxChars: nat) returns (selected: seq<Shown>)
    ensures |selected| == |ranked| == |Texts(ranked, maxChars)| && TotalChars(selected) <= maxChars
    ensures forall i :: 0 <= i < |ranked| ==> selected[i] == Shown(ranked[i], Texts(ranked, maxChars)[i], ranked[i].id in session)
  {
    TextsFitBudget(ranked, maxChars);
    var budget: int := maxChars;
    selected := [];
    for i := 0 to |ranked|
      invariant |selected| == i && budget == maxChars - TotalChars(selected) && budget >= 0
      invariant |Texts(ranked, maxChars)| == |ranked|
      invariant Texts(ranked[i..], budget) == Texts(ranked, maxChars)[i..]
      invariant forall j :: 0 <= j < i ==> selected[j] == Shown(ranked[j], Texts(ranked, maxChars)[j], ranked[j].id in session)
    {
      assert ranked[i..][0] == ranked[i] && ranked[i..][1..] == ranked[i + 1..];
      TextsFitBudget(ranked[i..], budget);
      var text := Cut(ranked[i].text, budget, |ranked| - i - 1);
      assert Texts(ranked[i..], budget)[0] == text && Texts(ranked[i..], budget)[1..] == Texts(ranked, maxChars)[i + 1..];
      AppendedTotal(selected, Shown(ranked[i], text, ranked[i].id in session));
      selected := selected + [Shown(ranked[i], text, ranked[i].id in session)];
      budget := budget - |text|;
    }
  }

  lemma SortedShown(selected: seq<Shown>)
    ensures InOrder(Sorted(selected, Chronological), Chronological)
    ensures TotalChars(Sorted(selected, Chronological)) == TotalChars(selected)
    ensures |Sorted(selected, Chronological)| == |selected| && forall s :: s in Sorted(selected, Chronological) <==> s in selected
  {
    SortedOf(selected, Chronological);
    SortedTotal(selected);
    forall s ensures s in Sorted(selected, Chronological) <==> s in selected {
      SortedHas(selected, Chronological, s);
    }
  }

  lemma FilledIsReading(turns: Turns, focus: set<string>, required: set<string>, maxChars: nat, selected: seq<Shown>)
    requires forall t :: t in Selection(turns, focus, required) ==>
              (t.id in Session(turns, focus) <==> InSession(turns, NewestFocus(turns, focus), t))
    requires var best := Selection(turns, focus, required);
             && |selected| == |best| == |Texts(best, maxChars)| && TotalChars(selected) <= maxChars
             && forall i :: 0 <= i < |best| ==>
                  selected[i] == Shown(best[i], Texts(best, maxChars)[i], best[i].id in Session(turns, focus))
    ensures IsReading(turns, focus, required, maxChars, Sorted(selected, Chronological))
  {
    var best := Selection(turns, focus, required);
    SortedShown(selected);
    FilledShowsBest(best, maxChars, selected, Session(turns, focus), Sorted(selected, Chronological));
  }

  /** Whatever order they are put in, the filled turns are the best ones, and each text keeps its share. */
  lemma FilledShowsBest(best: Turns, maxChars: nat, selected: seq<Shown>, session: set<string>, shown: seq<Shown>)
    requires |selected| == |best| == |Texts(best, maxChars)| && forall s :: s in shown <==> s in selected
    requires forall i :: 0 <= i < |best| ==> selected[i] == Shown(best[i], Texts(best, maxChars)[i], best[i].id in session)
    ensures forall t :: t in best <==> exists s :: s in shown && s.turn == t
    ensures forall s :: s in shown ==>
              && s.turn in best && s.text <= s.turn.text && |s.text| <= TURN_CHARS && (s.current <==> s.turn.id in session)
              && (maxChars >= RESERVED_CHARS * |best| ==> |s.text| >= Least(|s.turn.text|, RESERVED_CHARS))
  {
    TextsFitBudget(best, maxChars);
    if maxChars >= RESERVED_CHARS * |best| {
      EveryTurnKeepsItsShare(best, maxChars);
    }
    forall t | t in best ensures exists s :: s in shown && s.turn == t {
      var i :| 0 <= i < |best| && best[i] == t;
      assert selected[i] in shown;
    }
  }

  lemma SelectionIsFlagged(turns: Turns, focus: set<string>, required: set<string>)
    requires DistinctTurns(turns)
    ensures forall t :: t in Selection(turns, focus, required) ==>
              (t.id in Session(turns, focus) <==> InSession(turns, NewestFocus(turns, focus), t))
  {
    var related := Related(turns, focus, required);
    RelatedOf(turns, focus, required);
    BestOf(related, PrioritiesOf(turns, related, focus, required));
    forall t | t in related ensures t.id in Session(turns, focus) <==> InSession(turns, NewestFocus(turns, focus), t) {
      SessionIsMaximalRun(turns, focus, t);
    }
  }

  method Read(persona: string, group: string, events: seq<Event>, focus: set<string>, required: set<string>, maxChars: nat)
    returns (shown: seq<Shown>)
    ensures IsReading(Canonical(Scoped(events, persona, group)), focus, required, maxChars, shown)
    ensures forall s :: s in shown ==> exists e :: e in events && e.persona == persona && e.group == group && e.id == s.turn.id
  {
    var scoped := Scoped(events, persona, group);
    var sightings := Sight(scoped);
    var kept := WithoutEchoes(sightings, OwnSources(sightings));
    var latest := ById(kept);
    var turns := seq(|latest|, i requires 0 <= i < |latest| => Resolved(kept, latest[i]));
    CanonicalIsDistinct(scoped);
    var session := CurrentSession(turns, focus);
    var related := Relevant(turns, session + focus + required + Parents(turns, focus));
    var best := Best(related, PrioritiesOf(turns, related, focus, required));
    var selected := Fill(best, session, maxChars);
    SelectionIsFlagged(turns, focus, required);
    FilledIsReading(turns, focus, required, maxChars, selected);
    shown := Sorted(selected, Chronological);
    ShownIsInScope(persona, group, events, focus, required, maxChars, shown);
  }

  lemma ShownIsInScope(
    persona: string, group: string, events: seq<Event>, focus: set<string>, required: set<string>, maxChars: nat, shown: seq<Shown>)
    requires IsReading(Canonical(Scoped(events, persona, group)), focus, required, maxChars, shown)
    ensures forall s :: s in shown ==> exists e :: e in events && e.persona == persona && e.group == group && e.id == s.turn.id
  {
    var turns := Canonical(Scoped(events, persona, group));
    var related := Related(turns, focus, required);
    CanonicalIsDistinct(Scoped(events, persona, group));
    RelatedOf(turns, focus, required);
    BestOf(related, PrioritiesOf(turns, related, focus, required));
    forall s | s in shown ensures exists e :: e in events && e.persona == persona && e.group == group && e.id == s.turn.id {
      CanonicalIsInScope(events, persona, group, s.turn);
    }
  }
}
