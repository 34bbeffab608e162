/**
 * What runs of the shadow review repository promise, whatever calls overlap: frozen rows and
 * reviews are final, a read fails exactly when a commit overtakes it, and the splits are in
 * order of time as long as one freeze call has committed.
 */
module ShadowRuns {
  import opened Basics
  import opened Shadow

  /** Every record of a frozen corpus carries a label and known categories. */
  lemma FrozenRecordsAreJudged(acts: seq<Action>, scope: Scope, r: Record)
    requires r in Records(Run(Init, acts).rows, scope)
    ensures r.truth.Some? && r.categories != [] && forall c :: c in r.categories ==> c in SCENES
  {
    RunKeepsInv(Init, acts);
    RecordsHas(Run(Init, acts).rows, scope, r);
  }

  /** What a frozen record says of the row it is made from. */
  ghost predicate TellsOf(r: Record, row: Row) {
    && r.id == row.capture.id && r.lane == row.capture.lane && r.body == row.capture.body && r.occurredAt == row.capture.occurredAt
    && r.group == row.capture.scope.group && r.categories == row.categories && r.truth == row.truth
    && (r.reasonable <==> row.verdict == Some(Reasonable))
    && (r.split == "holdout" <==> row.split == Some(Holdout)) && (r.split == "calibration" <==> row.split == Some(Calibration))
    && r.kind == "shadow" && r.labelsFrozen && r.provenance.None?
  }

  lemma RecordTells(row: Row)
    ensures TellsOf(RecordOf(row), row)
  {
  }

  /** In every run a frozen record says of its decision what was captured and how it was judged. */
  lemma FrozenRecordsTell(acts: seq<Action>, scope: Scope, r: Record) returns (row: Row)
    requires r in Records(Run(Init, acts).rows, scope)
    ensures row in Run(Init, acts).rows && row.frozen && row.capture.scope == scope && TellsOf(r, row)
  {
    row := RowBehind(Run(Init, acts).rows, scope, r);
    RecordTells(row);
  }

  /** In every run only decisions made live, in shadow mode, by the installed program and judged are ever frozen. */
  lemma OnlyLiveIsFrozen(acts: seq<Action>, r: Row)
    requires r in Run(Init, acts).rows && r.frozen
    ensures r.capture.installed && r.capture.mode == "SHADOW"
    ensures r.verdict == Some(Reasonable) || r.verdict == Some(Unreasonable)
  {
    RunKeepsInv(Init, acts);
  }

  /** With 100 rows or more the holdout is never empty of itself; the share is rounded down, but at least one row calibrates. */
  lemma CalibrationShare(n: nat, fraction: real)
    requires n >= 100 && 0.0 < fraction < 1.0
    ensures var count := CalibrationCount(n, fraction);
            && 1 <= count < n
            && (if n as real * fraction < 1.0 then count == 1 else count as real <= n as real * fraction < count as real + 1.0)
  {
    ProductBelow(n as real, fraction);
    CappedBelow(n, n as real * fraction);
  }

  lemma CappedBelow(n: nat, share: real)
    requires n >= 100 && 0.0 < share < n as real
    ensures 1 <= Capped(n, share) < n
    ensures if share < 1.0 then Capped(n, share) == 1 else Capped(n, share) as real <= share < Capped(n, share) as real + 1.0
  {
    FloorBelow(share, n);
  }

  lemma ProductBelow(m: real, fraction: real)
    requires m > 0.0 && 0.0 < fraction < 1.0
    ensures 0.0 < m * fraction < m
  {
    assert m * (1.0 - fraction) > 0.0;
  }

  lemma FloorBelow(x: real, n: nat)
    requires 0.0 < x < n as real
    ensures 0 <= x.Floor < n && x.Floor as real <= x < x.Floor as real + 1.0
  {
  }

  // ---------------------------------------------------------------- rows that stay

  lemma CommitKeepsFrozenRows(s: State, c: nat)
    requires Inv(s) && Commits(s, c)
    ensures forall r :: r in s.rows && r.frozen ==> r in Apply(s, Commit(c)).rows
  {
    MarkedKeepsRows(s.rows, s.calls[c].scope, s.calls[c].selection);
  }

  lemma StepKeepsFrozenRows(s: State, a: Action)
    requires Inv(s)
    ensures forall r :: r in s.rows && r.frozen ==> r in Apply(s, a).rows
  {
    match a
    case Insert(c) =>
      if Inserts(s, c) {
        InsertedOf(s.rows, s.calls[c].capture);
      }
    case Review(id, within, verdict, categories, correction) =>
      ReviewedOf(s.rows, id, within, verdict, categories, correction);
    case Commit(c) =>
      if Commits(s, c) {
        CommitKeepsFrozenRows(s, c);
      }
    case _ =>
  }

  /** A frozen row keeps its label and its split for good. */
  lemma {:induction false} FrozenRowsStay(s: State, acts: seq<Action>, r: Row)
    requires Inv(s) && r in s.rows && r.frozen
    ensures r in Run(s, acts).rows
    decreases |acts|
  {
    if acts != [] {
      StepKeepsFrozenRows(s, acts[0]);
      StepKeepsInv(s, acts[0]);
      FrozenRowsStay(Apply(s, acts[0]), acts[1..], r);
    }
  }

  /** The same decision with the same verdict; it may have been frozen since. */
  predicate SameReview(r: Row, q: Row) {
    q.capture == r.capture && q.verdict == r.verdict && q.categories == r.categories && q.truth == r.truth
  }

  lemma ReviewKeepsReviews(
    rows: Rows, id: string, within: Option<Scope>, verdict: Verdict, categories: seq<string>, correction: Option<Label>, r: Row)
    requires RowsInv(rows) && r in rows && r.verdict.Some?
    ensures r in OrElse(Reviewed(rows, id, within, verdict, categories, correction), rows)
  {
    var k := Find(rows, id);
    if Reviewed(rows, id, within, verdict, categories, correction).Ok? {
      ReviewedRowOf(rows[k], verdict, categories, correction);
      assert rows[k] in rows && rows[k].verdict.None?;
      UpdatedOf(rows, k, ReviewedRow(rows[k], verdict, categories, correction).value);
    }
  }

  lemma StepKeepsReview(s: State, a: Action, r: Row) returns (q: Row)
    requires Inv(s) && r in s.rows && r.verdict.Some?
    ensures q in Apply(s, a).rows && SameReview(r, q)
  {
    q := r;
    match a
    case Insert(c) =>
      if Inserts(s, c) {
        InsertedOf(s.rows, s.calls[c].capture);
      }
    case Review(id, within, verdict, categories, correction) =>
      ReviewKeepsReviews(s.rows, id, within, verdict, categories, correction, r);
    case Commit(c) =>
      if Commits(s, c) {
        MarkedRowOf(s.rows, s.calls[c].scope, s.calls[c].selection, r);
        q := MarkedRow(r, s.calls[c].selection);
      }
    case _ =>
  }

  lemma {:induction false} ReviewStays(s: State, acts: seq<Action>, r: Row) returns (q: Row)
    requires Inv(s) && r in s.rows && r.verdict.Some?
    ensures q in Run(s, acts).rows && SameReview(r, q)
    decreases |acts|
  {
    q := r;
    if acts != [] {
      q := StepKeepsReview(s, acts[0], r);
      StepKeepsInv(s, acts[0]);
      var last := ReviewStays(Apply(s, acts[0]), acts[1..], q);
      q := last;
    }
  }

  /** A row is reviewed once: after any run every further review of it fails, whatever it says. */
  lemma ReviewedOnlyOnce(
    s: State, acts: seq<Action>, r: Row, within: Option<Scope>, verdict: Verdict, categories: seq<string>, correction: Option<Label>)
    requires Inv(s) && r in s.rows && r.verdict.Some?
    ensures Reviewed(Run(s, acts).rows, r.capture.id, within, verdict, categories, correction).Err?
    ensures exists q :: q in Run(s, acts).rows && SameReview(r, q)
  {
    var q := ReviewStays(s, acts, r);
    RunKeepsInv(s, acts);
    var rows := Run(s, acts).rows;
    FoundIfThere(rows, q);
    assert rows[Find(rows, r.capture.id)] in rows;
  }

  // ---------------------------------------------------------------- racing record calls

  ghost predicate Stored(rows: Rows, capture: Capture) {
    exists r :: r in rows && r.capture == capture
  }

  /** The step stores this capture, under an id that was free. */
  predicate Stores(s: State, a: Action, capture: Capture) {
    a.Insert? && Inserts(s, a.c) && s.calls[a.c].capture == capture && Find(s.rows, capture.id) == |s.rows|
  }

  lemma ReviewKeepsCaptures(
    rows: Rows, id: string, within: Option<Scope>, verdict: Verdict, categories: seq<string>, correction: Option<Label>, x: Capture)
    ensures Stored(OrElse(Reviewed(rows, id, within, verdict, categories, correction), rows), x) <==> Stored(rows, x)
  {
    var k := Find(rows, id);
    if Reviewed(rows, id, within, verdict, categories, correction).Ok? {
      ReviewedRowOf(rows[k], verdict, categories, correction);
      var changed := rows[k := ReviewedRow(rows[k], verdict, categories, correction).value];
      assert forall i :: 0 <= i < |rows| ==> changed[i].capture == rows[i].capture && changed[i] in changed && rows[i] in rows;
    }
  }

  lemma MarkedKeepsCaptures(rows: Rows, selection: Selection, x: Capture)
    ensures Stored(Marked(rows, selection), x) <==> Stored(rows, x)
  {
    MarkedAt(rows, selection);
    var marked := Marked(rows, selection);
    assert forall i :: 0 <= i < |rows| ==> marked[i].capture == rows[i].capture && marked[i] in marked && rows[i] in rows;
  }

  lemma StepStores(s: State, a: Action, x: Capture)
    requires Inv(s)
    ensures Stored(Apply(s, a).rows, x) <==> Stored(s.rows, x) || Stores(s, a, x)
  {
    match a
    case Insert(c) =>
      if Inserts(s, c) {
        InsertedOf(s.rows, s.calls[c].capture);
        if Stores(s, a, x) {
          assert Row(x, None, [], None, None, false) in Apply(s, a).rows;
        }
      }
    case Review(id, within, verdict, categories, correction) =>
      ReviewKeepsCaptures(s.rows, id, within, verdict, categories, correction, x);
    case Commit(c) =>
      if Commits(s, c) {
        MarkedKeepsCaptures(s.rows, s.calls[c].selection, x);
      }
    case _ =>
  }

  lemma ConflictsIff(rows: Rows, c: Capture)
    requires DistinctIds(rows)
    ensures Conflicts(rows, c) <==> exists x: Capture :: Stored(rows, x) && x.id == c.id && x != c
  {
    if x: Capture :| Stored(rows, x) && x.id == c.id && x != c {
      var r :| r in rows && r.capture == x;
      FoundIfThere(rows, r);
      assert rows[Find(rows, c.id)] in rows;
    }
    if Conflicts(rows, c) {
      assert rows[Find(rows, c.id)] in rows;
      assert Stored(rows, rows[Find(rows, c.id)].capture);
    }
  }

  /** Some step of the run stores another content under the same id. */
  ghost predicate Overtaken(s: State, acts: seq<Action>, c: Capture)
    decreases |acts|
  {
    && acts != []
    && ((exists x: Capture :: Stores(s, acts[0], x) && x.id == c.id && x != c) || Overtaken(Apply(s, acts[0]), acts[1..], c))
  }

  lemma {:induction false} ConflictsAfter(s: State, acts: seq<Action>, c: Capture)
    requires Inv(s)
    ensures Conflicts(Run(s, acts).rows, c) <==> Conflicts(s.rows, c) || Overtaken(s, acts, c)
    decreases |acts|
  {
    if acts != [] {
      var next := Apply(s, acts[0]);
      StepKeepsInv(s, acts[0]);
      ConflictsAfter(next, acts[1..], c);
      ConflictsIff(s.rows, c);
      ConflictsIff(next.rows, c);
      forall x: Capture ensures Stored(next.rows, x) <==> Stored(s.rows, x) || Stores(s, acts[0], x) {
        StepStores(s, acts[0], x);
      }
    }
  }

  /** The step by which call c goes on. */
  predicate StepsOf(a: Action, c: nat) {
    a == Insert(c) || a == Fetch(c)
  }

  lemma {:induction false} CallStays(s: State, acts: seq<Action>, c: nat)
    requires Inv(s) && c in s.calls && (s.calls[c].Recording? || s.calls[c].Reading?)
    requires forall a :: a in acts ==> !StepsOf(a, c)
    ensures c in Run(s, acts).calls && Run(s, acts).calls[c] == s.calls[c]
    decreases |acts|
  {
    if acts != [] {
      assert acts[0] in acts;
      StepKeepsInv(s, acts[0]);
      CallStays(Apply(s, acts[0]), acts[1..], c);
    }
  }

  /** A decision that is stored with another content is refused, now and after any run: the lookup begins no call. */
  lemma ConflictIsRefused(s: State, acts: seq<Action>, capture: Capture)
    requires Inv(s) && exists x: Capture :: Stored(s.rows, x) && x.id == capture.id && x != capture
    ensures Apply(Run(s, acts), Lookup(capture)) == Run(s, acts)
  {
    ConflictsIff(s.rows, capture);
    ConflictsAfter(s, acts, capture);
  }

  /** A freeze call that finds too few decisions ends there; one that finds enough holds all of them until it commits. */
  lemma SelectMeans(s: State, c: nat)
    requires Inv(s) && c in s.calls && s.calls[c].Checked?
    ensures var t := Apply(s, Select(c)); var scope, config := s.calls[c].scope, s.calls[c].config;
            && t.rows == s.rows && t.manifests == s.manifests && t.count == s.count
            && (c !in t.calls <==> || |Live(s.rows, scope)| < config.minimumReviewed
                                   || exists x :: x in config.sceneMinimums && |Covering(s.rows, scope, x)| < config.sceneMinimums[x])
            && (c in t.calls ==> t.calls[c].Selecting? && t.calls[c].scope == scope && t.calls == s.calls[c := t.calls[c]])
            && (c !in t.calls ==> t.calls == s.calls - {c})
  {
    SelectedIff(s.rows, s.calls[c].scope, s.calls[c].config);
  }

  /**
   * A record call that found no conflict: its insert is silently ignored, with another content
   * left under its id, exactly when another call stored that content in between.
   */
  lemma IgnoredIffOvertaken(s: State, capture: Capture, acts: seq<Action>)
    requires Inv(s) && !Conflicts(s.rows, capture) && forall a :: a in acts ==> !StepsOf(a, s.count)
    ensures var begun := Apply(s, Lookup(capture)); var t := Run(begun, acts); var done := Apply(t, Insert(s.count)).rows;
            && Inserts(t, s.count)
            && (Overtaken(begun, acts, capture) ==> done == t.rows && Conflicts(done, capture))
            && (!Overtaken(begun, acts, capture) ==> Stored(done, capture) && !Conflicts(done, capture))
  {
    var begun := Apply(s, Lookup(capture));
    var t := Run(begun, acts);
    StepKeepsInv(s, Lookup(capture));
    CallStays(begun, acts, s.count);
    ConflictsAfter(begun, acts, capture);
    RunKeepsInv(begun, acts);
    StepStores(t, Insert(s.count), capture);
    if !Conflicts(t.rows, capture) {
      StoredOrFree(t.rows, capture);
      InsertKeepsInv(t, s.count);
      ConflictsAfterInsert(t.rows, capture);
    }
  }

  lemma StoredOrFree(rows: Rows, capture: Capture)
    requires !Conflicts(rows, capture)
    ensures Stored(rows, capture) || Find(rows, capture.id) == |rows|
  {
    if Find(rows, capture.id) < |rows| {
      assert rows[Find(rows, capture.id)] in rows;
    }
  }

  lemma ConflictsAfterInsert(rows: Rows, capture: Capture)
    requires RowsInv(rows) && !Conflicts(rows, capture)
    ensures !Conflicts(Inserted(rows, capture), capture)
  {
    InsertedOf(rows, capture);
    var after := Inserted(rows, capture);
    ConflictsIff(rows, capture);
    ConflictsIff(after, capture);
    forall x: Capture | Stored(after, x) && x != capture ensures Stored(rows, x) {
    }
  }

  // ---------------------------------------------------------------- commits between two statements

  /** A commit that freezes a row of the scope which was not frozen yet. */
  ghost predicate FreezesMore(s: State, a: Action, scope: Scope) {
    && a.Commit? && Commits(s, a.c) && s.calls[a.c].scope == scope
    && exists r :: r in s.rows && r.capture.Key() in s.calls[a.c].selection.keys && !r.frozen
  }

  ghost predicate SomeFreezesMore(s: State, acts: seq<Action>, scope: Scope)
    decreases |acts|
  {
    acts != [] && (FreezesMore(s, acts[0], scope) || SomeFreezesMore(Apply(s, acts[0]), acts[1..], scope))
  }

  lemma {:induction false} MarkedGrows(rows: Rows, scope: Scope, selection: Selection)
    requires forall r :: r in rows ==> (r.frozen <==> r.split.Some?) && (r.capture.Key() in selection.keys ==> r.capture.scope == scope)
    ensures |Records(Marked(rows, selection), scope)| >= |Records(rows, scope)|
    ensures (exists r :: r in rows && r.capture.Key() in selection.keys && !r.frozen) ==>
              |Records(Marked(rows, selection), scope)| > |Records(rows, scope)|
  {
    if rows != [] {
      assert rows == [rows[0]] + rows[1..];
      MarkedGrows(rows[1..], scope, selection);
      assert Marked(rows, selection)[1..] == Marked(rows[1..], selection);
    }
  }

  lemma CommitRecords(s: State, c: nat, scope: Scope)
    requires Inv(s) && Commits(s, c)
    ensures |Records(Apply(s, Commit(c)).rows, scope)| >= |Records(s.rows, scope)|
    ensures if FreezesMore(s, Commit(c), scope) then |Records(Apply(s, Commit(c)).rows, scope)| > |Records(s.rows, scope)|
            else Records(Apply(s, Commit(c)).rows, scope) == Records(s.rows, scope)
  {
    var mine, selection := s.calls[c].scope, s.calls[c].selection;
    if mine != scope {
      MarkedKeepsOthers(s.rows, mine, selection, scope);
    } else {
      forall r | r in s.rows ensures r.capture.Key() in selection.keys ==> r.capture.scope == scope {
        MarkedRowOf(s.rows, mine, selection, r);
      }
      MarkedGrows(s.rows, scope, selection);
      if !FreezesMore(s, Commit(c), scope) {
        MarkedKeepsRecordsIf(s.rows, selection, scope);
      }
    }
  }

  /** A corpus changes by such commits only, and it only grows. */
  lemma StepRecords(s: State, a: Action, scope: Scope)
    requires Inv(s)
    ensures |Records(Apply(s, a).rows, scope)| >= |Records(s.rows, scope)|
    ensures if FreezesMore(s, a, scope) then |Records(Apply(s, a).rows, scope)| > |Records(s.rows, scope)|
            else Records(Apply(s, a).rows, scope) == Records(s.rows, scope)
  {
    match a
    case Insert(c) =>
      if Inserts(s, c) {
        InsertedOf(s.rows, s.calls[c].capture);
      }
    case Review(id, within, verdict, categories, correction) =>
      ReviewedOf(s.rows, id, within, verdict, categories, correction);
    case Commit(c) =>
      if Commits(s, c) {
        CommitRecords(s, c, scope);
      }
    case _ =>
  }

  lemma {:induction false} RunRecords(s: State, acts: seq<Action>, scope: Scope)
    requires Inv(s)
    ensures if SomeFreezesMore(s, acts, scope) then |Records(Run(s, acts).rows, scope)| > |Records(s.rows, scope)|
            else Records(Run(s, acts).rows, scope) == Records(s.rows, scope)
    decreases |acts|
  {
    if acts != [] {
      StepRecords(s, acts[0], scope);
      StepKeepsInv(s, acts[0]);
      RunRecords(Apply(s, acts[0]), acts[1..], scope);
    }
  }

  // ---------------------------------------------------------------- reading the frozen corpus

  lemma {:induction false} RecordsCarryNoProvenance(rows: Rows, scope: Scope)
    ensures Artifact(Records(rows, scope)) == Records(rows, scope)
  {
    forall i | 0 <= i < |Records(rows, scope)| ensures Records(rows, scope)[i].provenance == None {
      RecordsHas(rows, scope, Records(rows, scope)[i]);
    }
  }

  /**
   * A read takes the latest manifest, other calls go on, and it fetches the rows.  It reports a
   * mismatch exactly when a commit in between froze a new row of the scope; otherwise it serves
   * the corpus that was frozen when it began.
   */
  lemma ReadFailsIffOvertaken(s: State, scope: Scope, acts: seq<Action>)
    requires Inv(s) && Latest(s.manifests, scope).Some? && forall a :: a in acts ==> !StepsOf(a, s.count)
    ensures var begun := Apply(s, Look(scope)); var t := Run(begun, acts);
            && Reads(t, s.count)
            && Fetched(t, s.count) ==
               if SomeFreezesMore(begun, acts, scope) then Err(Mismatch)
               else Ok(Bound(Records(s.rows, scope), Latest(s.manifests, scope).value.version))
  {
    var begun := Apply(s, Look(scope));
    var t := Run(begun, acts);
    StepKeepsInv(s, Look(scope));
    CallStays(begun, acts, s.count);
    RunRecords(begun, acts, scope);
    RecordsCarryNoProvenance(s.rows, scope);
    RecordsCarryNoProvenance(t.rows, scope);
    assert ManifestInv(s.rows, s.manifests, scope);
  }

  /** The scope is frozen and no freeze call on it is still under way. */
  ghost predicate Settled(s: State, scope: Scope) {
    && Latest(s.manifests, scope).Some?
    && forall c :: c in s.calls && (s.calls[c].Checked? || s.calls[c].Selecting?) ==> s.calls[c].scope != scope
  }

  lemma StepKeepsSettled(s: State, a: Action, scope: Scope)
    requires Settled(s, scope)
    ensures Settled(Apply(s, a), scope) && !FreezesMore(s, a, scope)
    ensures Latest(Apply(s, a).manifests, scope) == Latest(s.manifests, scope)
  {
  }

  lemma {:induction false} SettledStays(s: State, acts: seq<Action>, scope: Scope)
    requires Settled(s, scope)
    ensures Settled(Run(s, acts), scope) && !SomeFreezesMore(s, acts, scope)
    ensures Latest(Run(s, acts).manifests, scope) == Latest(s.manifests, scope)
    decreases |acts|
  {
    if acts != [] {
      StepKeepsSettled(s, acts[0], scope);
      SettledStays(Apply(s, acts[0]), acts[1..], scope);
    }
  }

  /** From then on every read succeeds and serves the same corpus forever, whatever is recorded, reviewed or frozen. */
  lemma FrozenCorpusIsConstant(s: State, acts: seq<Action>, scope: Scope, between: seq<Action>)
    requires Inv(s) && Settled(s, scope) && forall a :: a in between ==> !StepsOf(a, Run(s, acts).count)
    ensures var t := Run(Apply(Run(s, acts), Look(scope)), between); var c := Run(s, acts).count;
            && Reads(t, c)
            && Fetched(t, c) == Ok(Bound(Records(s.rows, scope), Latest(s.manifests, scope).value.version))
            && Fetched(t, c) == FrozenCorpus(s.rows, s.manifests, scope)
  {
    var u := Run(s, acts);
    SettledStays(s, acts, scope);
    RunKeepsInv(s, acts);
    RunRecords(s, acts, scope);
    StepKeepsSettled(u, Look(scope), scope);
    SettledStays(Apply(u, Look(scope)), between, scope);
    ReadFailsIffOvertaken(u, scope, between);
    assert ManifestInv(s.rows, s.manifests, scope);
  }

  /** Whatever a read serves, in any run, is trusted; what it reports otherwise is the mismatch. */
  lemma ServedCorpusIsTrusted(acts: seq<Action>, c: nat)
    requires Reads(Run(Init, acts), c)
    ensures match Fetched(Run(Init, acts), c)
            case Ok(corpus) => FrozenShadow(corpus)
            case Err(e) => e == Mismatch
  {
    var s := Run(Init, acts);
    RunKeepsInv(Init, acts);
    var scope := s.calls[c].scope;
    var corpus := Records(s.rows, scope);
    assert ManifestInv(s.rows, s.manifests, scope);
    forall r | r in corpus ensures r.kind == "shadow" && r.labelsFrozen && r.split in {"calibration", "holdout"} {
      RecordsHas(s.rows, scope, r);
    }
    assert Splits(corpus) == {"calibration", "holdout"};
    BindIsTrustedIff(corpus, s.calls[c].manifest.version);
  }

  // ---------------------------------------------------------------- what a commit freezes

  function KeysOf(corpus: Corpus): seq<Key> {
    if corpus == [] then [] else [RowKey(corpus[0].occurredAt, corpus[0].id)] + KeysOf(corpus[1..])
  }

  lemma KeyIsBehindFirst(rows: Rows, k: Key)
    requires Ordered(rows) && rows != [] && exists r :: r in rows[1..] && r.capture.Key() == k
    ensures Before(rows[0].capture.Key(), k)
  {
    var r :| r in rows[1..] && r.capture.Key() == k;
    var i :| 0 < i < |rows| && rows[i] == r;
  }

  lemma RecordsOfMarked(rows: Rows, scope: Scope, selection: Selection)
    requires rows != []
    ensures var tail := Records(Marked(rows[1..], selection), scope);
            var first := MarkedRow(rows[0], selection);
            Records(Marked(rows, selection), scope) == if Listed(first, scope) then [RecordOf(first)] + tail else tail
  {
    assert Marked(rows, selection)[1..] == Marked(rows[1..], selection);
  }

  lemma {:induction false} MarkedKeys(rows: Rows, scope: Scope, selection: Selection)
    requires Ordered(rows) && forall r :: r in rows ==> !Listed(r, scope) && (r.frozen <==> r.split.Some?)
    requires forall r :: r in rows && r.capture.Key() in selection.keys ==> r.capture.scope == scope
    ensures var keys := KeysOf(Records(Marked(rows, selection), scope));
            && (forall k :: k in keys <==> k in selection.keys && exists r :: r in rows && r.capture.Key() == k)
            && (forall i, j :: 0 <= i < j < |keys| ==> Before(keys[i], keys[j]))
  {
    if rows != [] {
      var rest := rows[1..];
      assert rows == [rows[0]] + rest;
      MarkedKeys(rest, scope, selection);
      var keys := KeysOf(Records(Marked(rest, selection), scope));
      var first := MarkedRow(rows[0], selection);
      forall k | k in keys ensures Before(rows[0].capture.Key(), k) {
        KeyIsBehindFirst(rows, k);
      }
      RecordsOfMarked(rows, scope, selection);
      if Listed(first, scope) {
        KeysOfCons(RecordOf(first), Records(Marked(rest, selection), scope));
      }
    }
  }

  lemma KeysOfCons(r: Record, corpus: Corpus)
    ensures KeysOf([r] + corpus) == [RowKey(r.occurredAt, r.id)] + KeysOf(corpus)
  {
    assert ([r] + corpus)[1..] == corpus;
  }

  lemma TailKeys(a: seq<Key>)
    requires a != [] && forall i, j :: 0 <= i < j < |a| ==> Before(a[i], a[j])
    ensures forall k :: k in a[1..] <==> k in a && k != a[0]
  {
    assert a == [a[0]] + a[1..];
    forall i | 0 < i < |a| ensures a[i] != a[0] {
      BeforeIsTotal(a[0], a[i]);
    }
  }

  lemma {:induction false} SameSortedKeys(a: seq<Key>, b: seq<Key>)
    requires forall i, j :: 0 <= i < j < |a| ==> Before(a[i], a[j])
    requires forall i, j :: 0 <= i < j < |b| ==> Before(b[i], b[j])
    requires forall k :: k in a <==> k in b
    ensures a == b
  {
    assert (a != [] ==> a[0] in b) && (b != [] ==> b[0] in a);
    if a != [] && b != [] {
      BeforeIsTotal(a[0], b[0]);
      assert a == [a[0]] + a[1..] && b == [b[0]] + b[1..];
      TailKeys(a);
      TailKeys(b);
      SameSortedKeys(a[1..], b[1..]);
    }
  }

  lemma {:induction false} KeysAt(corpus: Corpus)
    ensures |KeysOf(corpus)| == |corpus|
    ensures forall i :: 0 <= i < |corpus| ==> KeysOf(corpus)[i] == RowKey(corpus[i].occurredAt, corpus[i].id)
  {
    if corpus != [] {
      KeysAt(corpus[1..]);
    }
  }

  lemma MarkedRecordSplit(rows: Rows, scope: Scope, selection: Selection, r: Record)
    requires RowsInv(rows) && SelectionInv(rows, scope, selection) && Records(rows, scope) == []
    requires r in Records(Marked(rows, selection), scope)
    ensures r.split == if Calibrates(selection, RowKey(r.occurredAt, r.id)) then "calibration" else "holdout"
  {
    RecordsHas(Marked(rows, selection), scope, r);
    var row' :| row' in Marked(rows, selection) && Listed(row', scope) && r == RecordOf(row');
    var row := MarkedFrom(rows, selection, row');
    NoRecordsNoRows(rows, scope, row);
  }

  lemma MarkedCorpus(rows: Rows, scope: Scope, selection: Selection)
    requires RowsInv(rows) && SelectionInv(rows, scope, selection) && Records(rows, scope) == []
    ensures var corpus := Records(Marked(rows, selection), scope);
            && KeysOf(corpus) == selection.keys && |corpus| == |selection.keys|
            && forall i :: 0 <= i < |corpus| ==> corpus[i].split == if i < selection.calibration then "calibration" else "holdout"
  {
    var corpus := Records(Marked(rows, selection), scope);
    MarkedCorpusKeys(rows, scope, selection);
    KeysAt(corpus);
    forall i | 0 <= i < |corpus| ensures corpus[i].split == if i < selection.calibration then "calibration" else "holdout" {
      MarkedRecordSplit(rows, scope, selection, corpus[i]);
      CalibratesByIndex(rows, scope, selection, i);
    }
  }

  lemma MarkedCorpusKeys(rows: Rows, scope: Scope, selection: Selection)
    requires RowsInv(rows) && SelectionInv(rows, scope, selection) && Records(rows, scope) == []
    ensures KeysOf(Records(Marked(rows, selection), scope)) == selection.keys
  {
    forall r | r in rows ensures !Listed(r, scope) && (r.capture.Key() in selection.keys ==> r.capture.scope == scope) {
      NoRecordsNoRows(rows, scope, r);
      MarkedRowOf(rows, scope, selection, r);
    }
    MarkedKeys(rows, scope, selection);
    SameSortedKeys(KeysOf(Records(Marked(rows, selection), scope)), selection.keys);
  }

  /**
   * The first freeze of a scope is exactly its selection: the oldest `calibration` rows
   * calibrate and all later ones are held out.
   */
  lemma FirstFreezeSplitsByTime(s: State, c: nat)
    requires Inv(s) && Commits(s, c) && Latest(s.manifests, s.calls[c].scope).None?
    ensures var Selecting(scope, selection) := s.calls[c];
            var corpus := Records(Apply(s, Commit(c)).rows, scope);
            && KeysOf(corpus) == selection.keys && 1 <= selection.calibration < |corpus|
            && forall i :: 0 <= i < |corpus| ==> corpus[i].split == if i < selection.calibration then "calibration" else "holdout"
  {
    assert ManifestInv(s.rows, s.manifests, s.calls[c].scope);
    MarkedCorpus(s.rows, s.calls[c].scope, s.calls[c].selection);
    assert Apply(s, Commit(c)).rows == Marked(s.rows, s.calls[c].selection);
  }

  /**
   * Two freeze calls that overlap: the later commit issues a second manifest, and it changes
   * the corpus exactly when a row it selected was not yet frozen.
   */
  lemma OverlapChangesCorpusIff(s: State, c: nat)
    requires Inv(s) && Commits(s, c) && Latest(s.manifests, s.calls[c].scope).Some?
    ensures var Selecting(scope, selection) := s.calls[c];
            var s' := Apply(s, Commit(c));
            && Latest(s'.manifests, scope).Some?
            && Latest(s'.manifests, scope).value.version == Latest(s.manifests, scope).value.version + 1
            && (Records(s'.rows, scope) == Records(s.rows, scope) <==>
                  forall r :: r in s.rows && r.capture.Key() in selection.keys ==> r.frozen)
  {
    CommitRecords(s, c, s.calls[c].scope);
    CommitAdvances(s, c);
  }

  lemma CommitAdvances(s: State, c: nat)
    requires ManifestsInv(s.rows, s.manifests) && Commits(s, c) && Latest(s.manifests, s.calls[c].scope).Some?
    ensures var latest := Latest(Apply(s, Commit(c)).manifests, s.calls[c].scope);
            latest.Some? && latest.value.version == Latest(s.manifests, s.calls[c].scope).value.version + 1
  {
    var scope := s.calls[c].scope;
    assert ManifestInv(s.rows, s.manifests, scope);
    LatestOfRegistered(s.manifests, scope, Records(Marked(s.rows, s.calls[c].selection), scope));
  }

  // ---------------------------------------------------------------- the splits in time

  function RecordKey(r: Record): Key {
    RowKey(r.occurredAt, r.id)
  }

  /** Every calibration record precedes every holdout record. */
  ghost predicate InTime(corpus: Corpus) {
    forall p, q :: p in corpus && q in corpus && p.split == "calibration" && q.split == "holdout" ==> Before(RecordKey(p), RecordKey(q))
  }

  lemma FirstFreezeIsInTime(s: State, c: nat)
    requires Inv(s) && Commits(s, c) && Latest(s.manifests, s.calls[c].scope).None?
    ensures InTime(Records(Apply(s, Commit(c)).rows, s.calls[c].scope))
  {
    FirstFreezeSplitsByTime(s, c);
    var keys, corpus := s.calls[c].selection.keys, Records(Apply(s, Commit(c)).rows, s.calls[c].scope);
    KeysAt(corpus);
    forall p, q | p in corpus && q in corpus && p.split == "calibration" && q.split == "holdout"
      ensures Before(RecordKey(p), RecordKey(q))
    {
      var i :| 0 <= i < |corpus| && corpus[i] == p;
      var j :| 0 <= j < |corpus| && corpus[j] == q;
      assert RecordKey(p) == keys[i] && RecordKey(q) == keys[j] && i < j;
    }
  }

  ghost predicate TimeInv(s: State, scope: Scope) {
    Latest(s.manifests, scope).Some? && Latest(s.manifests, scope).value.version == 1 ==> InTime(Records(s.rows, scope))
  }

  lemma OwnCommitKeepsTime(s: State, c: nat)
    requires Inv(s) && Commits(s, c)
    ensures TimeInv(Apply(s, Commit(c)), s.calls[c].scope)
  {
    var scope := s.calls[c].scope;
    if Latest(s.manifests, scope).None? {
      FirstFreezeIsInTime(s, c);
    } else {
      CommitAdvances(s, c);
    }
  }

  predicate OwnCommit(s: State, a: Action, scope: Scope) {
    a.Commit? && Commits(s, a.c) && s.calls[a.c].scope == scope
  }

  lemma OthersKeepManifest(s: State, a: Action, scope: Scope)
    requires !OwnCommit(s, a, scope)
    ensures Latest(Apply(s, a).manifests, scope) == Latest(s.manifests, scope) && !FreezesMore(s, a, scope)
  {
  }

  lemma StepKeepsTime(s: State, a: Action, scope: Scope)
    requires Inv(s) && TimeInv(s, scope)
    ensures TimeInv(Apply(s, a), scope)
  {
    if OwnCommit(s, a, scope) {
      OwnCommitKeepsTime(s, a.c);
    } else {
      OthersKeepManifest(s, a, scope);
      StepRecords(s, a, scope);
    }
  }

  lemma {:induction false} RunKeepsTime(s: State, acts: seq<Action>, scope: Scope)
    requires Inv(s) && TimeInv(s, scope)
    ensures TimeInv(Run(s, acts), scope)
    decreases |acts|
  {
    if acts != [] {
      StepKeepsTime(s, acts[0], scope);
      StepKeepsInv(s, acts[0]);
      RunKeepsTime(Apply(s, acts[0]), acts[1..], scope);
    }
  }

  /** In every run, as long as one freeze of the scope has committed, both splits are there and calibration precedes holdout. */
  lemma FirstManifestIsInTime(acts: seq<Action>, scope: Scope)
    requires Latest(Run(Init, acts).manifests, scope).Some? && Latest(Run(Init, acts).manifests, scope).value.version == 1
    ensures InTime(Records(Run(Init, acts).rows, scope)) && SplitsBoth(Records(Run(Init, acts).rows, scope))
  {
    RunKeepsInv(Init, acts);
    RunKeepsTime(Init, acts, scope);
    assert ManifestInv(Run(Init, acts).rows, Run(Init, acts).manifests, scope);
  }

  /** A freeze under way selects at least 100 rows, and a frozen corpus has as many. */
  ghost predicate LargeInv(s: State, scope: Scope) {
    && (forall c :: c in s.calls && s.calls[c].Selecting? ==> |s.calls[c].selection.keys| >= 100)
    && (Latest(s.manifests, scope).Some? ==> |Records(s.rows, scope)| >= 100)
  }

  lemma StepSelectsMany(s: State, a: Action)
    requires Inv(s) && forall c :: c in s.calls && s.calls[c].Selecting? ==> |s.calls[c].selection.keys| >= 100
    ensures var t := Apply(s, a); forall c :: c in t.calls && t.calls[c].Selecting? ==> |t.calls[c].selection.keys| >= 100
  {
    if a.Select? && a.c in s.calls && s.calls[a.c].Checked? {
      assert s.calls[a.c].config.Valid();
    }
  }

  lemma FirstCorpusIsSelection(s: State, c: nat)
    requires Inv(s) && Commits(s, c) && Latest(s.manifests, s.calls[c].scope).None?
    ensures |Records(Apply(s, Commit(c)).rows, s.calls[c].scope)| == |s.calls[c].selection.keys|
  {
    assert ManifestInv(s.rows, s.manifests, s.calls[c].scope);
    MarkedCorpus(s.rows, s.calls[c].scope, s.calls[c].selection);
  }

  lemma StepKeepsLarge(s: State, a: Action, scope: Scope)
    requires Inv(s) && LargeInv(s, scope)
    ensures LargeInv(Apply(s, a), scope)
  {
    StepSelectsMany(s, a);
    StepRecords(s, a, scope);
    if !OwnCommit(s, a, scope) {
      OthersKeepManifest(s, a, scope);
    } else if Latest(s.manifests, scope).None? {
      FirstCorpusIsSelection(s, a.c);
    }
  }

  lemma {:induction false} RunKeepsLarge(s: State, acts: seq<Action>, scope: Scope)
    requires Inv(s) && LargeInv(s, scope)
    ensures LargeInv(Run(s, acts), scope)
    decreases |acts|
  {
    if acts != [] {
      StepKeepsLarge(s, acts[0], scope);
      StepKeepsInv(s, acts[0]);
      RunKeepsLarge(Apply(s, acts[0]), acts[1..], scope);
    }
  }

  /** In every run a frozen corpus holds at least 100 judged live decisions. */
  lemma FrozenCorpusIsLarge(acts: seq<Action>, scope: Scope)
    requires Latest(Run(Init, acts).manifests, scope).Some?
    ensures |Records(Run(Init, acts).rows, scope)| >= 100
  {
    RunKeepsLarge(Init, acts, scope);
  }

  /** What the rows it newly marks must observe of the rows that are frozen already. */
  ghost predicate MarksInTime(rows: Rows, scope: Scope, selection: Selection) {
    forall r, q :: r in rows && !r.frozen && r.capture.Key() in selection.keys && q in rows && Listed(q, scope) ==>
      if Calibrates(selection, r.capture.Key()) then q.split == Some(Holdout) ==> Before(r.capture.Key(), q.capture.Key())
      else q.split == Some(Calibration) ==> Before(q.capture.Key(), r.capture.Key())
  }

  /** The same on rows: every calibration row of the scope precedes every holdout row. */
  ghost predicate RowsInTime(rows: Rows, scope: Scope) {
    forall p, q :: p in rows && q in rows && Listed(p, scope) && Listed(q, scope) && p.split == Some(Calibration) && q.split == Some(Holdout) ==>
      Before(p.capture.Key(), q.capture.Key())
  }

  lemma InTimeIffRows(rows: Rows, scope: Scope)
    ensures InTime(Records(rows, scope)) <==> RowsInTime(rows, scope)
  {
    if InTime(Records(rows, scope)) {
      RowsFollowRecords(rows, scope);
    }
    if RowsInTime(rows, scope) {
      RecordsFollowRows(rows, scope);
    }
  }

  lemma RowsFollowRecords(rows: Rows, scope: Scope)
    requires InTime(Records(rows, scope))
    ensures RowsInTime(rows, scope)
  {
    forall p, q | p in rows && q in rows && Listed(p, scope) && Listed(q, scope) && p.split == Some(Calibration) && q.split == Some(Holdout)
      ensures Before(p.capture.Key(), q.capture.Key())
    {
      RecordsHasRow(rows, scope, p);
      RecordsHasRow(rows, scope, q);
      assert Before(RecordKey(RecordOf(p)), RecordKey(RecordOf(q)));
    }
  }

  lemma RowBehind(rows: Rows, scope: Scope, r: Record) returns (row: Row)
    requires r in Records(rows, scope)
    ensures row in rows && Listed(row, scope) && r == RecordOf(row)
  {
    RecordsHas(rows, scope, r);
    row :| row in rows && Listed(row, scope) && r == RecordOf(row);
  }

  lemma RecordsFollowRows(rows: Rows, scope: Scope)
    requires RowsInTime(rows, scope)
    ensures InTime(Records(rows, scope))
  {
    var corpus := Records(rows, scope);
    forall p, q | p in corpus && q in corpus && p.split == "calibration" && q.split == "holdout"
      ensures Before(RecordKey(p), RecordKey(q))
    {
      var a := RowBehind(rows, scope, p);
      var b := RowBehind(rows, scope, q);
      assert a.split == Some(Calibration) && b.split == Some(Holdout);
    }
  }

  lemma SelectedInTime(rows: Rows, scope: Scope, selection: Selection, k: Key, l: Key)
    requires SelectionInv(rows, scope, selection) && k in selection.keys && l in selection.keys
    requires Calibrates(selection, k) && !Calibrates(selection, l)
    ensures Before(k, l)
  {
    var i :| 0 <= i < |selection.keys| && i < selection.calibration && selection.keys[i] == k;
    var j :| 0 <= j < |selection.keys| && selection.keys[j] == l;
    assert j >= selection.calibration;
  }

  lemma LaterCommitInTimeIff(rows: Rows, scope: Scope, selection: Selection)
    requires RowsInv(rows) && SelectionInv(rows, scope, selection)
    ensures RowsInTime(Marked(rows, selection), scope) <==> RowsInTime(rows, scope) && MarksInTime(rows, scope, selection)
  {
    var marked := Marked(rows, selection);
    forall r | r in rows ensures MarkedRow(r, selection) in marked && (r.capture.Key() in selection.keys ==> r.capture.scope == scope) {
      MarkedRowOf(rows, scope, selection, r);
    }
    if RowsInTime(rows, scope) && MarksInTime(rows, scope, selection) {
      forall p', q' | p' in marked && q' in marked && Listed(p', scope) && Listed(q', scope)
                      && p'.split == Some(Calibration) && q'.split == Some(Holdout)
        ensures Before(p'.capture.Key(), q'.capture.Key())
      {
        var p := MarkedFrom(rows, selection, p');
        var q := MarkedFrom(rows, selection, q');
        if !p.frozen && !q.frozen {
          SelectedInTime(rows, scope, selection, p.capture.Key(), q.capture.Key());
        }
      }
    } else if RowsInTime(marked, scope) {
      MarkedInTimeFits(rows, scope, selection);
    }
  }

  lemma MarkedInTimeFits(rows: Rows, scope: Scope, selection: Selection)
    requires RowsInv(rows) && SelectionInv(rows, scope, selection) && RowsInTime(Marked(rows, selection), scope)
    ensures RowsInTime(rows, scope) && MarksInTime(rows, scope, selection)
  {
    forall r | r in rows
      ensures MarkedRow(r, selection) in Marked(rows, selection) && (r.capture.Key() in selection.keys ==> r.capture.scope == scope)
    {
      MarkedRowOf(rows, scope, selection, r);
    }
  }

  lemma MarkedInTimeIff(rows: Rows, scope: Scope, selection: Selection)
    requires RowsInv(rows) && SelectionInv(rows, scope, selection)
    ensures InTime(Records(Marked(rows, selection), scope)) == (InTime(Records(rows, scope)) && MarksInTime(rows, scope, selection))
  {
    InTimeIffRows(rows, scope);
    InTimeIffRows(Marked(rows, selection), scope);
    LaterCommitInTimeIff(rows, scope, selection);
  }

  /** A later commit keeps the order of time exactly when it held before and what it newly marks fits in. */
  lemma LaterCommitKeepsTimeIff(s: State, c: nat)
    requires Inv(s) && Commits(s, c)
    ensures var Selecting(scope, selection) := s.calls[c];
            InTime(Records(Apply(s, Commit(c)).rows, scope)) ==
              (InTime(Records(s.rows, scope)) && MarksInTime(s.rows, scope, selection))
  {
    MarkedInTimeIff(s.rows, s.calls[c].scope, s.calls[c].selection);
    assert Apply(s, Commit(c)).rows == Marked(s.rows, s.calls[c].selection);
  }
}
