/**
 * A run in which two freeze calls of one scope overlap.  A hundred decisions are recorded and
 * reviewed, both calls look for a manifest, the first one commits, a hundred later decisions
 * are reviewed, and the second one selects and commits.
 */
module ShadowOverlap {
  import opened Basics
  import opened Shadow
  import opened ShadowRuns

  const Where := Scope("persona", "group")

  const Config := ReleaseConfig(100, 0.8, map["care" := 1])

  /** Decision i happens at time i; its id has length i. */
  function Name(i: nat): string {
    seq(i, _ => 'x')
  }

  function Decision(i: nat): Capture {
    Capture(Name(i), Where, i, true, "SHADOW", "SOCIAL_CONVERSATION", "", ["care"], "predicted")
  }

  function ReviewedDecision(i: nat): Row {
    Row(Decision(i), Some(Reasonable), ["care"], Some("predicted"), None, false)
  }

  predicate Good(r: Row) {
    r.Eligible() && r.categories == ["care"]
  }

  /** The table holds the first n decisions, all reviewed. */
  ghost predicate Filled(rows: Rows, n: nat) {
    && (forall r :: r in rows ==> Good(r) && exists i: nat :: i < n && r.capture == Decision(i))
    && (forall i: nat {:trigger Stored(rows, Decision(i))} :: i < n ==> Stored(rows, Decision(i)))
  }

  /** Decision i is recorded by the call named c and then reviewed. */
  function Adding(c: nat, i: nat): seq<Action> {
    [Lookup(Decision(i)), Insert(c), Review(Name(i), None, Reasonable, [], None)]
  }

  function Building(c: nat, from: nat, n: nat): seq<Action> {
    if n == 0 then [] else Building(c, from, n - 1) + Adding(c + n - 1, from + n - 1)
  }

  lemma {:induction false} RunConcat(s: State, first: seq<Action>, rest: seq<Action>)
    ensures Run(s, first + rest) == Run(Run(s, first), rest)
    decreases |first|
  {
    if first == [] {
      assert first + rest == rest;
    } else {
      assert (first + rest)[1..] == first[1..] + rest;
      RunConcat(Apply(s, first[0]), first[1..], rest);
    }
  }

  lemma NamesDiffer(i: nat, j: nat)
    requires i != j
    ensures Name(i) != Name(j)
  {
    assert |Name(i)| != |Name(j)|;
  }

  lemma NewDecision(rows: Rows, n: nat)
    requires Filled(rows, n)
    ensures Find(rows, Name(n)) == |rows|
  {
    forall k | 0 <= k < |rows| ensures rows[k].capture.id != Name(n) {
      assert rows[k] in rows;
      var i: nat :| i < n && rows[k].capture == Decision(i);
      NamesDiffer(i, n);
    }
  }

  /** Reviewing the pending row of a decision. */
  lemma ReviewPending(rows: Rows, i: nat)
    requires RowsInv(rows) && Row(Decision(i), None, [], None, None, false) in rows
    ensures var pending := Row(Decision(i), None, [], None, None, false);
            var r := Reviewed(rows, Name(i), None, Reasonable, [], None);
            r.Ok? && forall q :: q in r.value <==> (q in rows && q != pending) || q == ReviewedDecision(i)
  {
    var pending := Row(Decision(i), None, [], None, None, false);
    FoundIfThere(rows, pending);
    var k := Find(rows, Name(i));
    assert rows[k] in rows;
    assert rows[k] == pending;
    assert "care" in SCENES;
    assert ReviewedRow(pending, Reasonable, [], None) == Ok(ReviewedDecision(i));
    UpdatedOf(rows, k, ReviewedDecision(i));
    var changed := rows[k := ReviewedDecision(i)];
    forall q | q in changed ensures (q in rows && q != pending) || q == ReviewedDecision(i) {
      var j :| 0 <= j < |changed| && changed[j] == q;
      if j != k {
        BeforeIsTotal(rows[j].capture.Key(), rows[k].capture.Key());
      }
    }
    assert changed[k] in changed;
  }

  lemma RunThree(s: State, a: Action, b: Action, c: Action)
    ensures Run(s, [a, b, c]) == Apply(Apply(Apply(s, a), b), c)
  {
    var t := Apply(Apply(s, a), b);
    assert Run(t, [c]) == Apply(t, c);
    assert [b, c][1..] == [c] && [a, b, c][1..] == [b, c];
  }

  /** What recording and reviewing decision i changes. */
  ghost predicate Added(s: State, t: State, i: nat) {
    && t.manifests == s.manifests && t.calls == s.calls && t.count == s.count + 1
    && forall q :: q in t.rows <==> q in s.rows || q == ReviewedDecision(i)
  }

  /** A record call without conflict and without company. */
  lemma RecordedApart(s: State, capture: Capture)
    requires Inv(s) && !Conflicts(s.rows, capture)
    ensures var t := Apply(Apply(s, Lookup(capture)), Insert(s.count));
            Inv(t) && t == State(Inserted(s.rows, capture), s.manifests, s.calls, s.count + 1)
  {
    var begun := Apply(s, Lookup(capture));
    assert begun == Begun(s, Recording(capture));
    StepKeepsInv(s, Lookup(capture));
    StepKeepsInv(begun, Insert(s.count));
    assert begun.calls - {s.count} == s.calls;
  }

  lemma RecordedRows(s: State, i: nat)
    requires Inv(s) && Filled(s.rows, i)
    ensures var t := Apply(Apply(s, Lookup(Decision(i))), Insert(s.count));
            var pending := Row(Decision(i), None, [], None, None, false);
            && Inv(t) && t == State(t.rows, s.manifests, s.calls, s.count + 1)
            && pending !in s.rows && forall q :: q in t.rows <==> q in s.rows || q == pending
  {
    var pending := Row(Decision(i), None, [], None, None, false);
    NewDecision(s.rows, i);
    RecordedApart(s, Decision(i));
    InsertedOf(s.rows, Decision(i));
    if pending in s.rows {
      FoundIfThere(s.rows, pending);
    }
  }

  lemma AddedOf(s: State, i: nat)
    requires Inv(s) && Filled(s.rows, i)
    ensures Inv(Run(s, Adding(s.count, i))) && Added(s, Run(s, Adding(s.count, i)), i)
  {
    var pending := Row(Decision(i), None, [], None, None, false);
    var t := Apply(Apply(s, Lookup(Decision(i))), Insert(s.count));
    RunThree(s, Lookup(Decision(i)), Insert(s.count), Review(Name(i), None, Reasonable, [], None));
    RecordedRows(s, i);
    assert pending in t.rows;
    ReviewPending(t.rows, i);
    RunKeepsInv(s, Adding(s.count, i));
  }

  lemma AddedFills(s: State, t: State, i: nat)
    requires Filled(s.rows, i) && Added(s, t, i)
    ensures Filled(t.rows, i + 1)
  {
    assert ReviewedDecision(i) in t.rows;
    forall j: nat | j < i + 1 ensures Stored(t.rows, Decision(j)) {
      if j < i {
        assert Stored(s.rows, Decision(j));
        var r :| r in s.rows && r.capture == Decision(j);
        assert r in t.rows;
      }
    }
  }

  /** What recording and reviewing n decisions changes. */
  ghost predicate Built(s: State, t: State, from: nat, n: nat) {
    && t.manifests == s.manifests && t.calls == s.calls && t.count == s.count + n
    && (forall q :: q in s.rows ==> q in t.rows)
    && (forall i: nat :: from <= i < from + n ==> ReviewedDecision(i) in t.rows)
  }

  ghost predicate Stage(s: State, t: State, from: nat, n: nat) {
    Inv(t) && Filled(t.rows, from + n) && Built(s, t, from, n)
  }

  lemma RunBuilding(s: State, from: nat, n: nat)
    requires n > 0
    ensures Run(s, Building(s.count, from, n)) == Run(Run(s, Building(s.count, from, n - 1)), Adding(s.count + n - 1, from + n - 1))
  {
    RunConcat(s, Building(s.count, from, n - 1), Adding(s.count + n - 1, from + n - 1));
  }

  lemma BuiltNext(s: State, t: State, from: nat, n: nat)
    requires n > 0 && Stage(s, t, from, n - 1)
    ensures Stage(s, Run(t, Adding(s.count + n - 1, from + n - 1)), from, n)
  {
    AddedOf(t, from + n - 1);
    var next := Run(t, Adding(t.count, from + n - 1));
    AddedFills(t, next, from + n - 1);
    AddedBuilds(s, t, next, from, n);
  }

  lemma AddedBuilds(s: State, t: State, next: State, from: nat, n: nat)
    requires n > 0 && Built(s, t, from, n - 1) && Added(t, next, from + n - 1)
    ensures Built(s, next, from, n)
  {
  }

  lemma {:induction false} BuiltOf(s: State, from: nat, n: nat)
    requires Stage(s, s, from, 0)
    ensures Stage(s, Run(s, Building(s.count, from, n)), from, n)
    decreases n
  {
    if n > 0 {
      BuiltOf(s, from, n - 1);
      BuiltNext(s, Run(s, Building(s.count, from, n - 1)), from, n);
      RunBuilding(s, from, n);
    }
  }

  // ---------------------------------------------------------------- selections

  function Keys(n: nat): seq<Key> {
    seq(n, i requires 0 <= i < n => Decision(i).Key())
  }

  lemma KeysAscend(n: nat)
    ensures forall i, j :: 0 <= i < j < n ==> Before(Keys(n)[i], Keys(n)[j])
  {
  }

  lemma KeyIsChosen(rows: Rows, n: nat, k: Key)
    requires Filled(rows, n)
    ensures k in Keys(n) <==> exists r :: r in rows && r.capture.Key() == k && r.capture.scope == Where && r.Eligible()
  {
    var keys := Keys(n);
    if k in keys {
      var i: nat :| i < n && keys[i] == k;
      assert Stored(rows, Decision(i));
      var r :| r in rows && r.capture == Decision(i);
      assert Good(r);
    }
    if r :| r in rows && r.capture.Key() == k && r.capture.scope == Where && r.Eligible() {
      var i: nat :| i < n && r.capture == Decision(i);
      assert keys[i] == k;
    }
  }

  lemma ChosenKeys(rows: Rows, n: nat)
    requires Ordered(rows) && Filled(rows, n)
    ensures Chosen(rows, Where) == Keys(n)
  {
    ChosenOf(rows, Where);
    KeysAscend(n);
    forall k ensures k in Chosen(rows, Where) <==> k in Keys(n) {
      KeyIsChosen(rows, n, k);
    }
    SameSortedKeys(Chosen(rows, Where), Keys(n));
  }

  lemma {:induction false} Covers(rows: Rows, r: Row, category: string)
    requires r in rows && r.capture.scope == Where && r.Eligible() && category in r.categories
    ensures Coverage(rows, Where, category) >= 1
  {
    if rows[0] != r {
      assert rows == [rows[0]] + rows[1..];
      Covers(rows[1..], r, category);
    }
  }

  lemma SelectedKeys(rows: Rows, n: nat)
    requires RowsInv(rows) && Filled(rows, n) && n >= 100
    ensures Selected(rows, Where, Config) == Ok(Selection(Keys(n), CalibrationCount(n, 0.8)))
  {
    ChosenKeys(rows, n);
    assert Stored(rows, Decision(0));
    var r :| r in rows && r.capture == Decision(0);
    Covers(rows, r, "care");
  }

  // ---------------------------------------------------------------- the run

  function First(n: nat): Selection
    requires n >= 100
  {
    CalibrationShare(n, 0.8);
    Selection(Keys(n), CalibrationCount(n, 0.8))
  }

  /** Two freeze calls, named n and n + 1, look for a manifest, and the first one selects and commits. */
  function Freezing(n: nat): seq<Action> {
    [Check(Where, Config), Check(Where, Config)] + [Select(n), Commit(n)]
  }

  lemma RunTwo(s: State, a: Action, b: Action)
    ensures Run(s, [a, b]) == Apply(Apply(s, a), b)
  {
    assert [a, b][1..] == [b];
    assert Run(Apply(s, a), [b]) == Apply(Apply(s, a), b);
  }

  lemma MarkedFills(rows: Rows, selection: Selection, n: nat)
    requires Filled(rows, n)
    ensures Filled(Marked(rows, selection), n)
  {
    forall r' | r' in Marked(rows, selection) ensures Good(r') && exists i: nat :: i < n && r'.capture == Decision(i) {
      var r := MarkedFrom(rows, selection, r');
      assert Good(r);
    }
    forall i: nat | i < n ensures Stored(Marked(rows, selection), Decision(i)) {
      assert Stored(rows, Decision(i));
      MarkedKeepsCaptures(rows, selection, Decision(i));
    }
  }

  lemma ConfigIsValid()
    ensures Config.Valid()
  {
    assert "care" in SCENES && "care" in Config.sceneMinimums;
  }

  lemma BothCheck(s: State, n: nat)
    requires s == State(s.rows, map[], map[], n)
    ensures Run(s, [Check(Where, Config), Check(Where, Config)])
            == State(s.rows, map[], map[n := Checked(Where, Config), n + 1 := Checked(Where, Config)], n + 2)
  {
    ConfigIsValid();
    RunTwo(s, Check(Where, Config), Check(Where, Config));
  }

  lemma Selects(s: State, c: nat, n: nat)
    requires RowsInv(s.rows) && Filled(s.rows, n) && n >= 100 && c in s.calls && s.calls[c] == Checked(Where, Config)
    ensures Apply(s, Select(c)) == s.(calls := s.calls[c := Selecting(Where, First(n))])
  {
    SelectedKeys(s.rows, n);
  }

  lemma FirstCommits(s: State, n: nat)
    requires RowsInv(s.rows) && Filled(s.rows, n) && n >= 100 && s.manifests == map[]
    requires s.calls == map[n := Checked(Where, Config), n + 1 := Checked(Where, Config)]
    ensures var t := Run(s, [Select(n), Commit(n)]);
            && t.rows == Marked(s.rows, First(n)) && t.calls == map[n + 1 := Checked(Where, Config)] && t.count == s.count
            && t.manifests == Registered(map[], Where, Records(t.rows, Where))
  {
    RunTwo(s, Select(n), Commit(n));
    Selects(s, n, n);
    assert s.calls[n := Selecting(Where, First(n))] - {n} == map[n + 1 := Checked(Where, Config)];
  }

  /** The state in which the second call is about to commit. */
  ghost predicate Overlapping(s: State, n: nat)
    requires n >= 100
  {
    && Inv(s) && s.calls == map[n + 1 := Selecting(Where, First(2 * n))]
    && Latest(s.manifests, Where).Some? && Latest(s.manifests, Where).value.version == 1
    && ReviewedDecision(n) in s.rows
    && HeldOut(n - 1) in s.rows
  }

  function Overlap(n: nat): seq<Action> {
    Building(0, 0, n) + (Freezing(n) + (Building(n + 2, n, n) + [Select(n + 1)]))
  }

  lemma LastIsHeldOut(rows: Rows, n: nat)
    requires RowsInv(rows) && Filled(rows, n) && n >= 100 && ReviewedDecision(n - 1) in rows
    ensures HeldOut(n - 1) in Marked(rows, First(n))
  {
    ConfigIsValid();
    SelectedKeys(rows, n);
    SelectedOf(rows, Where, Config);
    MarkedRowOf(rows, Where, First(n), ReviewedDecision(n - 1));
    CalibratesByIndex(rows, Where, First(n), n - 1);
    assert Keys(n)[n - 1] == ReviewedDecision(n - 1).capture.Key();
  }

  /** The first n decisions are reviewed, and nothing else has happened. */
  ghost predicate OnlyReviewed(s: State, n: nat)
    requires n > 0
  {
    Inv(s) && Filled(s.rows, n) && s == State(s.rows, map[], map[], n) && ReviewedDecision(n - 1) in s.rows
  }

  /** The first freeze call has committed, the second has looked for a manifest. */
  ghost predicate FrozenOnce(t: State, n: nat)
    requires n > 0
  {
    && Inv(t) && Filled(t.rows, n) && t.calls == map[n + 1 := Checked(Where, Config)] && t.count == n + 2
    && Latest(t.manifests, Where).Some? && Latest(t.manifests, Where).value.version == 1
    && HeldOut(n - 1) in t.rows
  }

  function HeldOut(i: nat): Row {
    ReviewedDecision(i).(frozen := true, split := Some(Holdout))
  }

  lemma FirstFreeze(s: State, n: nat)
    requires n >= 100 && OnlyReviewed(s, n)
    ensures FrozenOnce(Run(s, Freezing(n)), n)
  {
    var checked := [Check(Where, Config), Check(Where, Config)];
    BothCheck(s, n);
    FirstCommits(Run(s, checked), n);
    RunConcat(s, checked, [Select(n), Commit(n)]);
    RunKeepsInv(s, Freezing(n));
    MarkedFills(s.rows, First(n), n);
    LastIsHeldOut(s.rows, n);
    LatestOfRegistered(map[], Where, Records(Marked(s.rows, First(n)), Where));
  }

  /** As many later decisions are reviewed. */
  ghost predicate ReviewedTwice(t: State, n: nat)
    requires n > 0
  {
    && Inv(t) && Filled(t.rows, 2 * n) && t.calls == map[n + 1 := Checked(Where, Config)]
    && Latest(t.manifests, Where).Some? && Latest(t.manifests, Where).value.version == 1
    && HeldOut(n - 1) in t.rows && ReviewedDecision(n) in t.rows
  }

  lemma LateReviews(s: State, n: nat)
    requires n > 0 && FrozenOnce(s, n)
    ensures ReviewedTwice(Run(s, Building(n + 2, n, n)), n)
  {
    BuiltOf(s, n, n);
  }

  lemma SecondSelects(t: State, n: nat)
    requires n >= 100 && ReviewedTwice(t, n)
    ensures Overlapping(Run(t, [Select(n + 1)]), n)
  {
    Selects(t, n + 1, 2 * n);
    assert Run(t, [Select(n + 1)]) == Apply(t, Select(n + 1));
    StepKeepsInv(t, Select(n + 1));
    assert t.calls[n + 1 := Selecting(Where, First(2 * n))] == map[n + 1 := Selecting(Where, First(2 * n))];
  }

  lemma EarlyReviews(n: nat)
    requires n > 0
    ensures OnlyReviewed(Run(Init, Building(0, 0, n)), n)
  {
    BuiltOf(Init, 0, n);
  }

  lemma RunInTurn(s: State, a: seq<Action>, b: seq<Action>, c: seq<Action>, d: seq<Action>)
    ensures Run(s, a + (b + (c + d))) == Run(Run(Run(Run(s, a), b), c), d)
  {
    RunConcat(s, a, b + (c + d));
    RunConcat(Run(s, a), b, c + d);
    RunConcat(Run(Run(s, a), b), c, d);
  }

  /** The run reaches the overlap, for a hundred decisions or any larger number. */
  lemma ReachesOverlap(n: nat)
    requires n >= 100
    ensures Overlapping(Run(Init, Overlap(n)), n)
  {
    EarlyReviews(n);
    FirstFreeze(Run(Init, Building(0, 0, n)), n);
    LateReviews(Run(Run(Init, Building(0, 0, n)), Freezing(n)), n);
    SecondSelects(Run(Run(Run(Init, Building(0, 0, n)), Freezing(n)), Building(n + 2, n, n)), n);
    RunInTurn(Init, Building(0, 0, n), Freezing(n), Building(n + 2, n, n), [Select(n + 1)]);
  }

  /** Commit c will freeze more, and a row to calibrate behind one that is held out. */
  ghost predicate CommitsLate(s: State, c: nat) {
    && Inv(s) && Commits(s, c) && s.calls[c].scope == Where
    && Latest(s.manifests, Where).Some? && Latest(s.manifests, Where).value.version == 1
    && FreezesMore(s, Commit(c), Where) && !MarksInTime(s.rows, Where, s.calls[c].selection)
  }

  /** Decision n is selected to calibrate, although decision n - 1 is held out already. */
  lemma LateCalibrates(s: State, n: nat)
    requires n >= 100 && Overlapping(s, n)
    ensures CommitsLate(s, n + 1)
  {
    var r, q := ReviewedDecision(n), HeldOut(n - 1);
    assert Keys(2 * n)[n] == r.capture.Key();
    CalibrationShare(2 * n, 0.8);
    assert Calibrates(First(2 * n), Keys(2 * n)[n]);
    BeforeIsTotal(r.capture.Key(), q.capture.Key());
    assert FreezesMore(s, Commit(n + 1), Where);
  }

  lemma CommitRewrites(s: State, c: nat)
    requires CommitsLate(s, c)
    ensures var t := Apply(s, Commit(c));
            && Records(t.rows, Where) != Records(s.rows, Where)
            && Latest(t.manifests, Where).Some? && Latest(t.manifests, Where).value.version == 2
  {
    CommitRecords(s, c, Where);
    CommitAdvances(s, c);
  }

  lemma CommitBreaksTime(s: State, c: nat)
    requires CommitsLate(s, c)
    ensures !InTime(Records(Apply(s, Commit(c)).rows, Where))
  {
    LaterCommitKeepsTimeIff(s, c);
  }

  /** The second commit changes the frozen corpus and puts a calibration record behind a holdout one. */
  lemma OverlapBreaksCorpus(n: nat)
    requires n >= 100
    ensures var s := Run(Init, Overlap(n)); var t := Apply(s, Commit(n + 1));
            && InTime(Records(s.rows, Where)) && !InTime(Records(t.rows, Where))
            && Records(t.rows, Where) != Records(s.rows, Where)
            && Latest(t.manifests, Where).Some? && Latest(t.manifests, Where).value.version == 2
  {
    OverlapCommitsLate(n);
    OverlapIsInTime(n);
    CommitBreaks(Run(Init, Overlap(n)), n + 1);
  }

  lemma OverlapIsInTime(n: nat)
    requires n >= 100
    ensures InTime(Records(Run(Init, Overlap(n)).rows, Where))
  {
    OverlapCommitsLate(n);
    FirstManifestIsInTime(Overlap(n), Where);
  }

  lemma CommitBreaks(s: State, c: nat)
    requires CommitsLate(s, c)
    ensures var t := Apply(s, Commit(c));
            && !InTime(Records(t.rows, Where)) && Records(t.rows, Where) != Records(s.rows, Where)
            && Latest(t.manifests, Where).Some? && Latest(t.manifests, Where).value.version == 2
  {
    CommitRewrites(s, c);
    CommitBreaksTime(s, c);
  }

  lemma OverlapCommitsLate(n: nat)
    requires n >= 100
    ensures CommitsLate(Run(Init, Overlap(n)), n + 1)
  {
    ReachesOverlap(n);
    LateCalibrates(Run(Init, Overlap(n)), n);
  }

  /** A read that began before that commit and fetches the rows after it reports a mismatch. */
  lemma OverlapFailsRead(n: nat)
    requires n >= 100
    ensures var s := Run(Init, Overlap(n)); var read := Apply(s, Look(Where)); var t := Apply(read, Commit(n + 1));
            && Reads(read, s.count) && Fetched(read, s.count).Ok?
            && Reads(t, s.count) && Fetched(t, s.count) == Err(Mismatch)
  {
    OverlapCommitsLate(n);
    ReadFails(Run(Init, Overlap(n)), n + 1);
  }

  lemma ReadFails(s: State, c: nat)
    requires CommitsLate(s, c)
    ensures var read := Apply(s, Look(Where)); var t := Apply(read, Commit(c));
            && Reads(read, s.count) && Fetched(read, s.count).Ok?
            && Reads(t, s.count) && Fetched(t, s.count) == Err(Mismatch)
  {
    ReadBefore(s);
    assert FreezesMore(Apply(s, Look(Where)), Commit(c), Where);
    ReadAfter(s, Commit(c));
  }

  lemma ReadBefore(s: State)
    requires Inv(s) && Latest(s.manifests, Where).Some?
    ensures var read := Apply(s, Look(Where)); Reads(read, s.count) && Fetched(read, s.count).Ok?
  {
    ReadFailsIffOvertaken(s, Where, []);
  }

  lemma ReadAfter(s: State, a: Action)
    requires Inv(s) && Latest(s.manifests, Where).Some? && !StepsOf(a, s.count)
    requires SomeFreezesMore(Apply(s, Look(Where)), [a], Where)
    ensures var t := Apply(Apply(s, Look(Where)), a); Reads(t, s.count) && Fetched(t, s.count) == Err(Mismatch)
  {
    ReadFailsIffOvertaken(s, Where, [a]);
    assert Run(Apply(s, Look(Where)), [a]) == Apply(Apply(s, Look(Where)), a);
  }
}
