/**
 * The shadow review repository: decisions are recorded, reviewed once, and frozen into a
 * calibration and a holdout split whose corpus is bound to a manifest.
 *
 * Each statement or transaction is one step, so calls of several processes can overlap: a
 * record takes two steps (look the decision up, insert unless it is there), a freeze three
 * (look for a manifest, select the reviewed rows, commit) and reading a frozen corpus two
 * (read the manifest, read the rows).  A digest is modelled by the content it is computed from.
 */
module Shadow {
  import opened Basics

  type Label = string

  datatype Scope = Scope(persona: string, group: string)

  /** `body` stands for the context, ownership and prediction of the decision. */
  datatype Capture = Capture(
    id: string, scope: Scope, occurredAt: nat, installed: bool, mode: string, lane: string, body: string,
    suggested: seq<string>, predicted: Label)
  {
    function SourceKind(): string {
      if installed && mode == "SHADOW" then "installed_live_shadow"
      else if installed && mode == "SOCIAL_RUNTIME" then "installed_live_social_runtime"
      else "historical_bootstrap"
    }

    function Key(): Key {
      RowKey(occurredAt, id)
    }
  }

  datatype Verdict = Reasonable | Unreasonable | Insufficient

  datatype Row = Row(
    capture: Capture, verdict: Option<Verdict>, categories: seq<string>, truth: Option<Label>, split: Option<Split>, frozen: bool)
  {
    predicate Eligible() {
      (verdict == Some(Reasonable) || verdict == Some(Unreasonable)) && capture.SourceKind() == "installed_live_shadow"
    }
  }

  // ---------------------------------------------------------------- the order of rows

  datatype Key = RowKey(at: nat, id: string)

  predicate Before(a: Key, b: Key) {
    a.at < b.at || (a.at == b.at && TextLeq(a.id, b.id) && a.id != b.id)
  }

  lemma BeforeIsTotal(a: Key, b: Key)
    ensures a != b ==> Before(a, b) || Before(b, a)
    ensures !(Before(a, b) && Before(b, a))
  {
    TextLeqIsTotal(a.id, b.id);
  }

  lemma BeforeIsTransitive(a: Key, b: Key, c: Key)
    requires Before(a, b) && Before(b, c)
    ensures Before(a, c)
  {
    if a.at == b.at == c.at {
      TextLeqIsTransitive(a.id, b.id, c.id);
      TextLeqIsTotal(a.id, b.id);
    }
  }

  /** The rows of the table, in the order in which every query lists them. */
  type Rows = seq<Row>

  function Placed(rows: Rows, row: Row): Rows {
    if rows == [] || Before(row.capture.Key(), rows[0].capture.Key()) then [row] + rows
    else [rows[0]] + Placed(rows[1..], row)
  }

  predicate Ordered(rows: Rows) {
    forall i, j :: 0 <= i < j < |rows| ==> Before(rows[i].capture.Key(), rows[j].capture.Key())
  }

  predicate DistinctIds(rows: Rows) {
    forall r, q :: r in rows && q in rows && r.capture.id == q.capture.id ==> r == q
  }

  /** The position of a row, or the length. */
  function Find(rows: Rows, id: string): (k: nat)
    ensures k <= |rows|
    ensures k < |rows| ==> rows[k].capture.id == id
    ensures forall i :: 0 <= i < k ==> rows[i].capture.id != id
  {
    if rows == [] || rows[0].capture.id == id then 0 else Find(rows[1..], id) + 1
  }

  // ---------------------------------------------------------------- record and review

  datatype Error = Conflict | Missing | HoldoutFrozen | CalibrationFrozen | AlreadyReviewed | UnknownCategory
    | NoCategories | UnexpectedCorrection | NoCorrection | TooFew | Uncovered | NotFrozen | Mismatch

  /** The insert is ignored when the decision is already there. */
  function Inserted(rows: Rows, c: Capture): Rows {
    if Find(rows, c.id) < |rows| then rows else Placed(rows, Row(c, None, [], None, None, false))
  }

  predicate Conflicts(rows: Rows, c: Capture) {
    var k := Find(rows, c.id);
    k < |rows| && rows[k].capture != c
  }

  /** A record call that nothing overtakes. */
  function Recorded(rows: Rows, c: Capture): Result<Rows, Error> {
    if Conflicts(rows, c) then Err(Conflict) else Ok(Inserted(rows, c))
  }

  const SCENES := {
    "direct_interaction", "consecutive_messages", "parallel_topics", "public_help", "humor", "care", "shared_experience",
    "media_reaction", "task_progress", "boundary", "sleep_wake", "autonomous_initiation", "expired_opportunity",
    "task_topic_change", "ambiguous_target", "correct_silence"
  }

  function ReviewLabel(c: Capture, verdict: Verdict, correction: Option<Label>): Result<Option<Label>, Error> {
    match verdict
    case Reasonable => if correction.Some? then Err(UnexpectedCorrection) else Ok(Some(c.predicted))
    case Unreasonable => if correction.None? then Err(NoCorrection) else Ok(correction)
    case Insufficient => if correction.Some? then Err(UnexpectedCorrection) else Ok(None)
  }

  function ReviewedRow(row: Row, verdict: Verdict, categories: seq<string>, correction: Option<Label>): Result<Row, Error> {
    if row.frozen then Err(if row.split == Some(Holdout) then HoldoutFrozen else CalibrationFrozen)
    else if row.verdict.Some? then Err(AlreadyReviewed)
    else
      var chosen := if categories == [] then row.capture.suggested else Distinct(categories);
      if exists c :: c in chosen && c !in SCENES then Err(UnknownCategory)
      else if verdict != Insufficient && chosen == [] then Err(NoCategories)
      else
        match ReviewLabel(row.capture, verdict, correction)
        case Err(e) => Err(e)
        case Ok(truth) => Ok(row.(verdict := Some(verdict), categories := chosen, truth := truth))
  }

  /** `within` restricts the review to one scope. */
  function Reviewed(
    rows: Rows, id: string, within: Option<Scope>, verdict: Verdict, categories: seq<string>, correction: Option<Label>): Result<Rows, Error>
  {
    var k := Find(rows, id);
    if k == |rows| || (within.Some? && within.value != rows[k].capture.scope) then Err(Missing)
    else
      match ReviewedRow(rows[k], verdict, categories, correction)
      case Err(e) => Err(e)
      case Ok(row) => Ok(rows[k := row])
  }

  // ---------------------------------------------------------------- corpora and digests

  datatype Provenance = Provenance(
    kind: string, version: nat, installed: bool, mode: string, frozen: bool,
    scenarios: seq<(string, string, string)>, labels: seq<(string, Option<Label>)>, artifact: seq<Record>)

  /** A scenario as the evaluation runner receives it; every field but `provenance` is part of the artifact. */
  datatype Record = Record(
    id: string, split: string, kind: string, labelsFrozen: bool, lane: string, group: string, categories: seq<string>,
    body: string, truth: Option<Label>, occurredAt: nat, reasonable: bool, provenance: Option<Provenance>)

  type Corpus = seq<Record>

  function SplitName(split: Option<Split>): string {
    match split
    case None => ""
    case Some(Calibration) => "calibration"
    case Some(Holdout) => "holdout"
  }

  function RecordOf(row: Row): Record {
    Record(row.capture.id, SplitName(row.split), "shadow", true, row.capture.lane, row.capture.scope.group, row.categories,
           row.capture.body, row.truth, row.capture.occurredAt, row.verdict == Some(Reasonable), None)
  }

  predicate Listed(row: Row, scope: Scope) {
    row.capture.scope == scope && row.frozen && row.split.Some?
  }

  function Records(rows: Rows, scope: Scope): Corpus {
    if rows == [] then []
    else (if Listed(rows[0], scope) then [RecordOf(rows[0])] else []) + Records(rows[1..], scope)
  }

  function Scenarios(corpus: Corpus): seq<(string, string, string)> {
    seq(|corpus|, i requires 0 <= i < |corpus| => (corpus[i].id, corpus[i].split, corpus[i].lane))
  }

  function Labels(corpus: Corpus): seq<(string, Option<Label>)> {
    seq(|corpus|, i requires 0 <= i < |corpus| => (corpus[i].id, corpus[i].truth))
  }

  function Artifact(corpus: Corpus): Corpus {
    seq(|corpus|, i requires 0 <= i < |corpus| => corpus[i].(provenance := None))
  }

  function Bound(corpus: Corpus, version: nat): Corpus {
    var p := Provenance("installed_live_shadow", version, true, "SHADOW", true, Scenarios(corpus), Labels(corpus), Artifact(corpus));
    seq(|corpus|, i requires 0 <= i < |corpus| => corpus[i].(provenance := Some(p)))
  }

  function Splits(corpus: Corpus): set<string> {
    set r | r in corpus :: r.split
  }

  /** The records come with the provenance of the whole sequence, as the runner demands before it trusts them. */
  predicate FrozenShadow(corpus: Corpus) {
    && corpus != []
    && Splits(corpus) == {"calibration", "holdout"}
    && forall r :: r in corpus ==>
         && r.kind == "shadow" && r.labelsFrozen && r.provenance.Some?
         && var p := r.provenance.value;
            && p.kind == "installed_live_shadow" && p.installed && p.mode == "SHADOW" && p.frozen
            && p.scenarios == Scenarios(corpus) && p.labels == Labels(corpus) && p.artifact == Artifact(corpus)
  }

  // ---------------------------------------------------------------- freezing

  datatype ReleaseConfig = ReleaseConfig(minimumReviewed: nat, calibrationFraction: real, sceneMinimums: map<string, nat>)
  {
    predicate Valid() {
      && minimumReviewed >= 100 && 0.0 < calibrationFraction < 1.0
      && sceneMinimums != map[] && forall c :: c in sceneMinimums ==> c in SCENES && sceneMinimums[c] >= 1
    }
  }

  datatype Manifest = Manifest(
    version: nat, scenarios: seq<(string, string, string)>, labels: seq<(string, Option<Label>)>, artifact: Corpus)

  function ManifestOf(corpus: Corpus, version: nat): Manifest {
    Manifest(version, Scenarios(corpus), Labels(corpus), Artifact(corpus))
  }

  type Manifests = map<Scope, seq<Manifest>>

  function Latest(manifests: Manifests, scope: Scope): Option<Manifest> {
    if scope in manifests && manifests[scope] != [] then Some(manifests[scope][|manifests[scope]| - 1]) else None
  }

  /** The rows of a scope, served against a manifest that was read before. */
  function CorpusAgainst(rows: Rows, scope: Scope, m: Manifest): Result<Corpus, Error> {
    var corpus := Records(rows, scope);
    if Scenarios(corpus) != m.scenarios || Labels(corpus) != m.labels || Artifact(corpus) != m.artifact then Err(Mismatch)
    else Ok(Bound(corpus, m.version))
  }

  /** A read that nothing overtakes. */
  function FrozenCorpus(rows: Rows, manifests: Manifests, scope: Scope): Result<Corpus, Error> {
    match Latest(manifests, scope)
    case None => Err(NotFrozen)
    case Some(m) => CorpusAgainst(rows, scope, m)
  }

  function Chosen(rows: Rows, scope: Scope): seq<Key> {
    if rows == [] then []
    else (if rows[0].capture.scope == scope && rows[0].Eligible() then [rows[0].capture.Key()] else []) + Chosen(rows[1..], scope)
  }

  /** How many eligible rows of the scope carry the category. */
  function Coverage(rows: Rows, scope: Scope, category: string): nat {
    if rows == [] then 0
    else
      (if rows[0].capture.scope == scope && rows[0].Eligible() && category in rows[0].categories then 1 else 0)
        + Coverage(rows[1..], scope, category)
  }

  function CalibrationCount(n: nat, fraction: real): int {
    Capped(n, n as real * fraction)
  }

  /** Rounded down, but at least one and not all. */
  function Capped(n: nat, share: real): int {
    var count := share.Floor;
    var capped := if n - 1 < count then n - 1 else count;
    if capped < 1 then 1 else capped
  }

  /** The rows to freeze and how many of them, from the oldest, calibrate. */
  datatype Selection = Selection(keys: seq<Key>, calibration: nat)

  function Selected(rows: Rows, scope: Scope, config: ReleaseConfig): Result<Selection, Error> {
    var keys := Chosen(rows, scope);
    if |keys| < config.minimumReviewed then Err(TooFew)
    else if exists c :: c in config.sceneMinimums && Coverage(rows, scope, c) < config.sceneMinimums[c] then Err(Uncovered)
    else Ok(Selection(keys, CalibrationCount(|keys|, config.calibrationFraction)))
  }

  predicate Calibrates(selection: Selection, key: Key) {
    exists i :: 0 <= i < |selection.keys| && i < selection.calibration && selection.keys[i] == key
  }

  /** The update touches no row that is already frozen. */
  function MarkedRow(row: Row, selection: Selection): Row {
    if row.frozen || row.capture.Key() !in selection.keys then row
    else row.(frozen := true, split := Some(if Calibrates(selection, row.capture.Key()) then Calibration else Holdout))
  }

  function Marked(rows: Rows, selection: Selection): Rows {
    if rows == [] then [] else [MarkedRow(rows[0], selection)] + Marked(rows[1..], selection)
  }

  function Registered(manifests: Manifests, scope: Scope, corpus: Corpus): Manifests {
    var earlier := if scope in manifests then manifests[scope] else [];
    manifests[scope := earlier + [ManifestOf(corpus, |earlier| + 1)]]
  }

  // ---------------------------------------------------------------- runs

  /** What a call under way holds between two of its statements. */
  datatype Call =
    | Recording(capture: Capture)
    | Checked(scope: Scope, config: ReleaseConfig)
    | Selecting(scope: Scope, selection: Selection)
    | Reading(scope: Scope, manifest: Manifest)

  datatype State = State(rows: Rows, manifests: Manifests, calls: map<nat, Call>, count: nat)

  const Init := State([], map[], map[], 0)

  datatype Action =
    | Lookup(capture: Capture)                    // a record call looks the decision up
    | Insert(c: nat)                              // it inserts, unless the decision is there by now
    | Review(id: string, within: Option<Scope>, verdict: Verdict, categories: seq<string>, correction: Option<Label>)
    | Check(scope: Scope, config: ReleaseConfig)  // a freeze call looks for a manifest
    | Select(c: nat)                              // it reads the reviewed rows
    | Commit(c: nat)                              // its transaction
    | Look(scope: Scope)                          // a read, also that of a freeze call, takes the latest manifest
    | Fetch(c: nat)                               // it reads the rows and compares

  function OrElse(r: Result<Rows, Error>, rows: Rows): Rows {
    match r
    case Ok(changed) => changed
    case Err(_) => rows
  }

  function Begun(s: State, call: Call): State {
    s.(calls := s.calls[s.count := call], count := s.count + 1)
  }

  predicate Inserts(s: State, c: nat) {
    c in s.calls && s.calls[c].Recording?
  }

  predicate Commits(s: State, c: nat) {
    c in s.calls && s.calls[c].Selecting?
  }

  predicate Reads(s: State, c: nat) {
    c in s.calls && s.calls[c].Reading?
  }

  /** A refused call, or a step of a call that is not there, changes nothing. */
  function Apply(s: State, a: Action): State {
    match a
    case Lookup(capture) => if Conflicts(s.rows, capture) then s else Begun(s, Recording(capture))
    case Insert(c) =>
      if Inserts(s, c) then s.(rows := Inserted(s.rows, s.calls[c].capture), calls := s.calls - {c}) else s
    case Review(id, within, verdict, categories, correction) =>
      s.(rows := OrElse(Reviewed(s.rows, id, within, verdict, categories, correction), s.rows))
    case Check(scope, config) =>
      if Latest(s.manifests, scope).Some? || !config.Valid() then s else Begun(s, Checked(scope, config))
    case Select(c) =>
      if c in s.calls && s.calls[c].Checked? then
        match Selected(s.rows, s.calls[c].scope, s.calls[c].config)
        case Ok(selection) => s.(calls := s.calls[c := Selecting(s.calls[c].scope, selection)])
        case Err(_) => s.(calls := s.calls - {c})
      else s
    case Commit(c) =>
      if Commits(s, c) then
        var scope := s.calls[c].scope;
        var rows := Marked(s.rows, s.calls[c].selection);
        State(rows, Registered(s.manifests, scope, Records(rows, scope)), s.calls - {c}, s.count)
      else s
    case Look(scope) =>
      var m := Latest(s.manifests, scope);
      if m.None? then s else Begun(s, Reading(scope, m.value))
    case Fetch(c) => if Reads(s, c) then s.(calls := s.calls - {c}) else s
  }

  /** What the read c returns if it fetches the rows now. */
  function Fetched(s: State, c: nat): Result<Corpus, Error>
    requires Reads(s, c)
  {
    CorpusAgainst(s.rows, s.calls[c].scope, s.calls[c].manifest)
  }

  function Run(s: State, acts: seq<Action>): State
    decreases |acts|
  {
    if acts == [] then s else Run(Apply(s, acts[0]), acts[1..])
  }

  // ---------------------------------------------------------------- invariant of all runs

  /** A verdict comes with the label it stands for and with known categories. */
  ghost predicate Judged(r: Row) {
    && (forall c :: c in r.categories ==> c in SCENES)
    && match r.verdict
       case None => r.truth == None && r.categories == []
       case Some(Reasonable) => r.truth == Some(r.capture.predicted) && r.categories != []
       case Some(Unreasonable) => r.truth.Some? && r.categories != []
       case Some(Insufficient) => r.truth == None
  }

  ghost predicate RowsInv(rows: Rows) {
    && Ordered(rows) && DistinctIds(rows)
    && forall r :: r in rows ==> (r.frozen <==> r.split.Some?) && (r.frozen ==> r.Eligible()) && Judged(r)
  }

  ghost predicate SplitsBoth(corpus: Corpus) {
    (exists r :: r in corpus && r.split == "calibration") && (exists r :: r in corpus && r.split == "holdout")
  }

  /** The latest manifest of a scope describes its records; without a manifest there are none. */
  ghost predicate ManifestInv(rows: Rows, manifests: Manifests, scope: Scope) {
    match Latest(manifests, scope)
    case None => Records(rows, scope) == []
    case Some(m) => m == ManifestOf(Records(rows, scope), |manifests[scope]|) && SplitsBoth(Records(rows, scope))
  }

  ghost predicate ManifestsInv(rows: Rows, manifests: Manifests) {
    forall scope :: ManifestInv(rows, manifests, scope)
  }

  ghost predicate SelectionInv(rows: Rows, scope: Scope, selection: Selection) {
    && 1 <= selection.calibration < |selection.keys|
    && (forall i, j :: 0 <= i < j < |selection.keys| ==> Before(selection.keys[i], selection.keys[j]))
    && (forall k :: k in selection.keys ==>
          exists r :: r in rows && r.capture.Key() == k && r.capture.scope == scope && r.Eligible())
  }

  ghost predicate CallsInv(s: State) {
    && (forall c :: c in s.calls ==> c < s.count)
    && (forall c :: c in s.calls && s.calls[c].Checked? ==> s.calls[c].config.Valid())
    && (forall c :: c in s.calls && s.calls[c].Selecting? ==> SelectionInv(s.rows, s.calls[c].scope, s.calls[c].selection))
    && (forall c :: c in s.calls && s.calls[c].Reading? ==> Latest(s.manifests, s.calls[c].scope).Some?)
  }

  ghost predicate Inv(s: State) {
    RowsInv(s.rows) && ManifestsInv(s.rows, s.manifests) && CallsInv(s)
  }

  lemma {:induction false} RecordsHas(rows: Rows, scope: Scope, r: Record)
    ensures r in Records(rows, scope) <==> exists row :: row in rows && Listed(row, scope) && r == RecordOf(row)
  {
    if rows != [] {
      RecordsHas(rows[1..], scope, r);
      assert rows == [rows[0]] + rows[1..];
    }
  }

  lemma {:induction false} PlacedOf(rows: Rows, row: Row)
    requires Ordered(rows) && forall r :: r in rows ==> r.capture.Key() != row.capture.Key()
    ensures forall r :: r in Placed(rows, row) <==> r in rows || r == row
    ensures Ordered(Placed(rows, row))
  {
    if rows != [] {
      var rest := rows[1..];
      assert rows == [rows[0]] + rest && rows[0] in rows;
      BeforeIsTotal(rows[0].capture.Key(), row.capture.Key());
      if Before(row.capture.Key(), rows[0].capture.Key()) {
        forall j | 0 < j < |rows| ensures Before(row.capture.Key(), rows[j].capture.Key()) {
          BeforeIsTransitive(row.capture.Key(), rows[0].capture.Key(), rows[j].capture.Key());
        }
      } else {
        PlacedOf(rest, row);
        var all := Placed(rest, row);
        forall j | 0 <= j < |all| ensures Before(rows[0].capture.Key(), all[j].capture.Key()) {
          assert all[j] in all;
          if all[j] != row {
            var k :| 0 <= k < |rest| && rest[k] == all[j];
            assert rows[k + 1] == rest[k];
          }
        }
      }
    }
  }

  lemma {:induction false} PlacedKeepsRecords(rows: Rows, row: Row, scope: Scope)
    requires !row.frozen
    ensures Records(Placed(rows, row), scope) == Records(rows, scope)
  {
    if rows == [] || Before(row.capture.Key(), rows[0].capture.Key()) {
      assert Placed(rows, row)[1..] == rows;
    } else {
      PlacedKeepsRecords(rows[1..], row, scope);
    }
  }

  lemma {:induction false} UpdateKeepsRecords(rows: Rows, k: nat, row: Row, scope: Scope)
    requires k < |rows| && !row.frozen && !rows[k].frozen
    ensures Records(rows[k := row], scope) == Records(rows, scope)
  {
    if k == 0 {
      assert rows[k := row][1..] == rows[1..];
    } else {
      UpdateKeepsRecords(rows[1..], k - 1, row, scope);
      assert rows[k := row][1..] == rows[1..][k - 1 := row];
    }
  }

  lemma {:induction false} MarkedAt(rows: Rows, selection: Selection)
    ensures |Marked(rows, selection)| == |rows|
    ensures forall i :: 0 <= i < |rows| ==> Marked(rows, selection)[i] == MarkedRow(rows[i], selection)
  {
    if rows != [] {
      MarkedAt(rows[1..], selection);
    }
  }

  // The effect of a step on the rows: recording adds a pending row, reviewing replaces one.

  lemma FoundIfThere(rows: Rows, r: Row)
    requires r in rows
    ensures Find(rows, r.capture.id) < |rows|
  {
  }

  lemma NewRowIsPlaced(rows: Rows, c: Capture)
    requires Ordered(rows) && DistinctIds(rows) && Find(rows, c.id) == |rows|
    ensures var row := Row(c, None, [], None, None, false);
            Ordered(Placed(rows, row)) && DistinctIds(Placed(rows, row)) && forall r :: r in Placed(rows, row) <==> r in rows || r == row
  {
    forall r | r in rows ensures r.capture.id != c.id {
      FoundIfThere(rows, r);
    }
    var row := Row(c, None, [], None, None, false);
    PlacedOf(rows, row);
    forall r, q | r in Placed(rows, row) && q in Placed(rows, row) && r.capture.id == q.capture.id ensures r == q {
      assert r in rows && q in rows ==> r == q;
    }
  }

  lemma InsertedOf(rows: Rows, c: Capture)
    requires RowsInv(rows)
    ensures RowsInv(Inserted(rows, c))
    ensures forall r :: r in Inserted(rows, c) <==> r in rows || (Find(rows, c.id) == |rows| && r == Row(c, None, [], None, None, false))
    ensures forall scope :: Records(Inserted(rows, c), scope) == Records(rows, scope)
  {
    if Find(rows, c.id) == |rows| {
      NewRowIsPlaced(rows, c);
      forall scope ensures Records(Inserted(rows, c), scope) == Records(rows, scope) {
        PlacedKeepsRecords(rows, Row(c, None, [], None, None, false), scope);
      }
    }
  }

  lemma ReviewedRowOf(row: Row, verdict: Verdict, categories: seq<string>, correction: Option<Label>)
    ensures match ReviewedRow(row, verdict, categories, correction)
            case Err(_) => true
            case Ok(changed) =>
              && !row.frozen && !row.Eligible() && !changed.frozen && changed.capture == row.capture && changed.split == row.split
              && Judged(changed) && changed.verdict == Some(verdict) && (verdict == Unreasonable ==> changed.truth == correction)
  {
  }

  lemma UpdatedOf(rows: Rows, k: nat, row: Row)
    requires RowsInv(rows) && k < |rows|
    requires row.capture == rows[k].capture && !row.frozen && row.split == rows[k].split && !rows[k].frozen && Judged(row)
    ensures RowsInv(rows[k := row])
    ensures forall r :: r in rows && r != rows[k] ==> r in rows[k := row]
  {
    var changed := rows[k := row];
    forall r | r in changed ensures r == row || r in rows {
    }
    forall i, j | 0 <= i < j < |rows| ensures rows[i].capture.id != rows[j].capture.id {
      BeforeIsTotal(rows[i].capture.Key(), rows[j].capture.Key());
    }
    forall r | r in rows && r != rows[k] ensures r in changed {
      var i :| 0 <= i < |rows| && rows[i] == r;
      assert changed[i] == r;
    }
  }

  /** What recording and reviewing keep: frozen rows, eligible rows and every corpus. */
  ghost predicate Gentle(rows: Rows, rows': Rows) {
    && RowsInv(rows')
    && (forall r :: r in rows && (r.frozen || r.Eligible()) ==> r in rows')
    && (forall scope :: Records(rows', scope) == Records(rows, scope))
  }

  lemma ReviewedOf(rows: Rows, id: string, within: Option<Scope>, verdict: Verdict, categories: seq<string>, correction: Option<Label>)
    requires RowsInv(rows)
    ensures Gentle(rows, OrElse(Reviewed(rows, id, within, verdict, categories, correction), rows))
  {
    var k := Find(rows, id);
    if Reviewed(rows, id, within, verdict, categories, correction).Ok? {
      ReviewedRowOf(rows[k], verdict, categories, correction);
      var row := ReviewedRow(rows[k], verdict, categories, correction).value;
      assert rows[k] in rows;
      UpdatedOf(rows, k, row);
      forall scope ensures Records(rows[k := row], scope) == Records(rows, scope) {
        UpdateKeepsRecords(rows, k, row, scope);
      }
    }
  }

  lemma GentleKeepsManifests(rows: Rows, rows': Rows, manifests: Manifests)
    requires ManifestsInv(rows, manifests) && Gentle(rows, rows')
    ensures ManifestsInv(rows', manifests)
  {
    forall scope ensures ManifestInv(rows', manifests, scope) {
      assert ManifestInv(rows, manifests, scope);
    }
  }

  lemma GentleKeepsInv(s: State, rows: Rows)
    requires Inv(s) && Gentle(s.rows, rows)
    ensures Inv(s.(rows := rows))
  {
    GentleKeepsManifests(s.rows, rows, s.manifests);
  }

  // ---------------------------------------------------------------- selecting and marking

  lemma {:induction false} ChosenOf(rows: Rows, scope: Scope)
    requires Ordered(rows)
    ensures forall i, j :: 0 <= i < j < |Chosen(rows, scope)| ==> Before(Chosen(rows, scope)[i], Chosen(rows, scope)[j])
    ensures forall k :: k in Chosen(rows, scope) <==>
              exists r :: r in rows && r.capture.Key() == k && r.capture.scope == scope && r.Eligible()
  {
    if rows != [] {
      var rest := rows[1..];
      assert rows == [rows[0]] + rest;
      ChosenOf(rest, scope);
      forall k | k in Chosen(rest, scope) ensures Before(rows[0].capture.Key(), k) {
        var r :| r in rest && r.capture.Key() == k;
        FirstIsBefore(rows, r);
      }
    }
  }

  lemma FirstIsBefore(rows: Rows, r: Row)
    requires Ordered(rows) && rows != [] && r in rows[1..]
    ensures Before(rows[0].capture.Key(), r.capture.Key())
  {
    var i :| 0 <= i < |rows[1..]| && rows[1..][i] == r;
    assert rows[i + 1] == r;
  }

  lemma SelectedOf(rows: Rows, scope: Scope, config: ReleaseConfig)
    requires RowsInv(rows) && config.Valid() && Selected(rows, scope, config).Ok?
    ensures SelectionInv(rows, scope, Selected(rows, scope, config).value)
  {
    ChosenOf(rows, scope);
  }

  lemma KeysAreUnique(rows: Rows, r: Row, q: Row)
    requires Ordered(rows) && r in rows && q in rows && r.capture.Key() == q.capture.Key()
    ensures r == q
  {
    var i :| 0 <= i < |rows| && rows[i] == r;
    var j :| 0 <= j < |rows| && rows[j] == q;
    BeforeIsTotal(r.capture.Key(), q.capture.Key());
  }

  /** Only rows of the scope, reviewed and not frozen before, are changed. */
  lemma MarkedRowOf(rows: Rows, scope: Scope, selection: Selection, r: Row)
    requires RowsInv(rows) && SelectionInv(rows, scope, selection) && r in rows
    ensures r.capture.Key() in selection.keys ==> r.capture.scope == scope && r.Eligible()
    ensures MarkedRow(r, selection) in Marked(rows, selection)
  {
    MarkedAt(rows, selection);
    var i :| 0 <= i < |rows| && rows[i] == r;
    assert Marked(rows, selection)[i] == MarkedRow(r, selection);
    if r.capture.Key() in selection.keys {
      var q :| q in rows && q.capture.Key() == r.capture.Key() && q.capture.scope == scope && q.Eligible();
      KeysAreUnique(rows, r, q);
    }
  }

  lemma MarkedFrom(rows: Rows, selection: Selection, r': Row) returns (r: Row)
    requires r' in Marked(rows, selection)
    ensures r in rows && r' == MarkedRow(r, selection)
  {
    MarkedAt(rows, selection);
    var i :| 0 <= i < |rows| && Marked(rows, selection)[i] == r';
    r := rows[i];
  }

  lemma MarkedKeepsOrder(rows: Rows, selection: Selection)
    requires Ordered(rows)
    ensures Ordered(Marked(rows, selection))
  {
    MarkedAt(rows, selection);
  }

  lemma MarkedKeepsIds(rows: Rows, selection: Selection)
    requires DistinctIds(rows)
    ensures DistinctIds(Marked(rows, selection))
  {
    var marked := Marked(rows, selection);
    forall r', q' | r' in marked && q' in marked && r'.capture.id == q'.capture.id ensures r' == q' {
      var r := MarkedFrom(rows, selection, r');
      var q := MarkedFrom(rows, selection, q');
      assert r == q;
    }
  }

  lemma MarkedKeepsRows(rows: Rows, scope: Scope, selection: Selection)
    requires RowsInv(rows) && SelectionInv(rows, scope, selection)
    ensures RowsInv(Marked(rows, selection))
    ensures forall r :: r in rows && r.frozen ==> r in Marked(rows, selection)
  {
    var marked := Marked(rows, selection);
    MarkedKeepsOrder(rows, selection);
    MarkedKeepsIds(rows, selection);
    forall r' | r' in marked ensures (r'.frozen <==> r'.split.Some?) && (r'.frozen ==> r'.Eligible()) && Judged(r') {
      var r := MarkedFrom(rows, selection, r');
      MarkedRowOf(rows, scope, selection, r);
    }
    forall r | r in rows && r.frozen ensures r in marked {
      MarkedRowOf(rows, scope, selection, r);
    }
  }

  lemma {:induction false} MarkedKeepsRecordsIf(rows: Rows, selection: Selection, other: Scope)
    requires forall r :: r in rows && r.capture.scope == other && r.capture.Key() in selection.keys ==> r.frozen
    ensures Records(Marked(rows, selection), other) == Records(rows, other)
  {
    if rows != [] {
      assert rows == [rows[0]] + rows[1..];
      MarkedKeepsRecordsIf(rows[1..], selection, other);
      assert Marked(rows, selection)[1..] == Marked(rows[1..], selection);
    }
  }

  lemma MarkedKeepsSelections(rows: Rows, scope: Scope, selection: Selection, scope2: Scope, selection2: Selection)
    requires RowsInv(rows) && SelectionInv(rows, scope, selection) && SelectionInv(rows, scope2, selection2)
    ensures SelectionInv(Marked(rows, selection), scope2, selection2)
  {
    forall k | k in selection2.keys
      ensures exists r :: r in Marked(rows, selection) && r.capture.Key() == k && r.capture.scope == scope2 && r.Eligible()
    {
      var r :| r in rows && r.capture.Key() == k && r.capture.scope == scope2 && r.Eligible();
      MarkedRowOf(rows, scope, selection, r);
      var r' := MarkedRow(r, selection);
      assert r' in Marked(rows, selection) && r'.capture.Key() == k && r'.capture.scope == scope2 && r'.Eligible();
    }
  }

  lemma RecordsHasRow(rows: Rows, scope: Scope, row: Row)
    requires row in rows && Listed(row, scope)
    ensures RecordOf(row) in Records(rows, scope)
  {
    RecordsHas(rows, scope, RecordOf(row));
  }

  lemma {:induction false} NoRecordsNoRows(rows: Rows, scope: Scope, row: Row)
    requires Records(rows, scope) == [] && row in rows
    ensures !Listed(row, scope)
  {
    if Listed(row, scope) {
      RecordsHasRow(rows, scope, row);
    }
  }

  lemma MarkedRecord(rows: Rows, scope: Scope, selection: Selection, i: nat)
    requires RowsInv(rows) && SelectionInv(rows, scope, selection) && Records(rows, scope) == [] && i < |selection.keys|
    ensures exists r :: r in Records(Marked(rows, selection), scope)
                        && r.split == SplitName(Some(if i < selection.calibration then Calibration else Holdout))
  {
    var k := selection.keys[i];
    assert k in selection.keys;
    var r :| r in rows && r.capture.Key() == k && r.capture.scope == scope && r.Eligible();
    NoRecordsNoRows(rows, scope, r);
    MarkedRowOf(rows, scope, selection, r);
    CalibratesByIndex(rows, scope, selection, i);
    RecordsHasRow(Marked(rows, selection), scope, MarkedRow(r, selection));
  }

  lemma CalibratesByIndex(rows: Rows, scope: Scope, selection: Selection, i: nat)
    requires SelectionInv(rows, scope, selection) && i < |selection.keys|
    ensures Calibrates(selection, selection.keys[i]) <==> i < selection.calibration
  {
    forall j | 0 <= j < |selection.keys| && selection.keys[j] == selection.keys[i] ensures j == i {
      BeforeIsTotal(selection.keys[i], selection.keys[j]);
    }
  }

  lemma MarkedSplitsBoth(rows: Rows, scope: Scope, selection: Selection)
    requires RowsInv(rows) && SelectionInv(rows, scope, selection)
    requires Records(rows, scope) == [] || SplitsBoth(Records(rows, scope))
    ensures SplitsBoth(Records(Marked(rows, selection), scope))
  {
    if Records(rows, scope) == [] {
      MarkedRecord(rows, scope, selection, 0);
      MarkedRecord(rows, scope, selection, |selection.keys| - 1);
    } else {
      MarkedKeepsRows(rows, scope, selection);
      forall r | r in Records(rows, scope) ensures r in Records(Marked(rows, selection), scope) {
        RecordsHas(rows, scope, r);
        var row :| row in rows && Listed(row, scope) && r == RecordOf(row);
        RecordsHasRow(Marked(rows, selection), scope, row);
      }
    }
  }

  // ---------------------------------------------------------------- all steps keep the invariant

  lemma MarkedKeepsOthers(rows: Rows, scope: Scope, selection: Selection, other: Scope)
    requires RowsInv(rows) && SelectionInv(rows, scope, selection) && other != scope
    ensures Records(Marked(rows, selection), other) == Records(rows, other)
  {
    forall r | r in rows ensures r.capture.Key() in selection.keys ==> r.capture.scope == scope {
      MarkedRowOf(rows, scope, selection, r);
    }
    MarkedKeepsRecordsIf(rows, selection, other);
  }

  lemma LatestOfRegistered(manifests: Manifests, scope: Scope, corpus: Corpus)
    ensures Latest(Registered(manifests, scope, corpus), scope)
            == Some(ManifestOf(corpus, if scope in manifests then |manifests[scope]| + 1 else 1))
  {
  }

  lemma CommitKeepsManifest(rows: Rows, manifests: Manifests, scope: Scope, selection: Selection, other: Scope)
    requires RowsInv(rows) && ManifestInv(rows, manifests, other) && SelectionInv(rows, scope, selection)
    ensures ManifestInv(Marked(rows, selection), Registered(manifests, scope, Records(Marked(rows, selection), scope)), other)
  {
    var corpus := Records(Marked(rows, selection), scope);
    if other == scope {
      MarkedSplitsBoth(rows, scope, selection);
      LatestOfRegistered(manifests, scope, corpus);
      assert |Registered(manifests, scope, corpus)[scope]| == if scope in manifests then |manifests[scope]| + 1 else 1;
    } else {
      MarkedKeepsOthers(rows, scope, selection, other);
      OthersKeepLatest(manifests, scope, corpus, other);
    }
  }

  lemma OthersKeepLatest(manifests: Manifests, scope: Scope, corpus: Corpus, other: Scope)
    requires other != scope
    ensures Latest(Registered(manifests, scope, corpus), other) == Latest(manifests, other)
    ensures other in Registered(manifests, scope, corpus) <==> other in manifests
    ensures other in manifests ==> Registered(manifests, scope, corpus)[other] == manifests[other]
  {
  }

  lemma CommitKeepsManifests(rows: Rows, manifests: Manifests, scope: Scope, selection: Selection)
    requires RowsInv(rows) && ManifestsInv(rows, manifests) && SelectionInv(rows, scope, selection)
    ensures ManifestsInv(Marked(rows, selection), Registered(manifests, scope, Records(Marked(rows, selection), scope)))
  {
    forall other
      ensures ManifestInv(Marked(rows, selection), Registered(manifests, scope, Records(Marked(rows, selection), scope)), other)
    {
      assert ManifestInv(rows, manifests, other);
      CommitKeepsManifest(rows, manifests, scope, selection, other);
    }
  }

  lemma CommitKeepsInv(s: State, c: nat)
    requires Inv(s) && Commits(s, c)
    ensures Inv(Apply(s, Commit(c)))
  {
    var scope, selection := s.calls[c].scope, s.calls[c].selection;
    MarkedKeepsRows(s.rows, scope, selection);
    CommitKeepsManifests(s.rows, s.manifests, scope, selection);
    LatestOfRegistered(s.manifests, scope, Records(Marked(s.rows, selection), scope));
    forall d | d in s.calls && s.calls[d].Selecting?
      ensures SelectionInv(Marked(s.rows, selection), s.calls[d].scope, s.calls[d].selection)
    {
      MarkedKeepsSelections(s.rows, scope, selection, s.calls[d].scope, s.calls[d].selection);
    }
  }

  lemma InsertKeepsInv(s: State, c: nat)
    requires Inv(s) && Inserts(s, c)
    ensures Inv(Apply(s, Insert(c)))
  {
    InsertedOf(s.rows, s.calls[c].capture);
    GentleKeepsInv(s, Inserted(s.rows, s.calls[c].capture));
  }

  lemma StepKeepsInv(s: State, a: Action)
    requires Inv(s)
    ensures Inv(Apply(s, a))
  {
    match a
    case Insert(c) =>
      if Inserts(s, c) {
        InsertKeepsInv(s, c);
      }
    case Review(_, _, _, _, _) => ReviewKeepsInv(s, a);
    case Select(c) => SelectKeepsInv(s, c);
    case Commit(c) =>
      if Commits(s, c) {
        CommitKeepsInv(s, c);
      }
    case _ =>
  }

  lemma ReviewKeepsInv(s: State, a: Action)
    requires Inv(s) && a.Review?
    ensures Inv(Apply(s, a))
  {
    ReviewedOf(s.rows, a.id, a.within, a.verdict, a.categories, a.correction);
    GentleKeepsInv(s, Apply(s, a).rows);
  }

  lemma SelectKeepsInv(s: State, c: nat)
    requires Inv(s)
    ensures Inv(Apply(s, Select(c)))
  {
    if c in s.calls && s.calls[c].Checked? && Selected(s.rows, s.calls[c].scope, s.calls[c].config).Ok? {
      SelectedOf(s.rows, s.calls[c].scope, s.calls[c].config);
    }
  }

  lemma {:induction false} RunKeepsInv(s: State, acts: seq<Action>)
    requires Inv(s)
    ensures Inv(Run(s, acts))
    decreases |acts|
  {
    if acts != [] {
      StepKeepsInv(s, acts[0]);
      RunKeepsInv(Apply(s, acts[0]), acts[1..]);
    }
  }

  // ---------------------------------------------------------------- what the runner trusts

  lemma BoundAt(corpus: Corpus, version: nat)
    ensures Scenarios(Bound(corpus, version)) == Scenarios(corpus)
    ensures Labels(Bound(corpus, version)) == Labels(corpus)
    ensures Artifact(Bound(corpus, version)) == Artifact(corpus)
  {
  }

  lemma SplitsOfBound(corpus: Corpus, version: nat)
    ensures Splits(Bound(corpus, version)) == Splits(corpus)
  {
    var bound := Bound(corpus, version);
    forall r | r in corpus ensures r.split in Splits(bound) {
      var i :| 0 <= i < |corpus| && corpus[i] == r;
      assert bound[i] in bound && bound[i].split == r.split;
    }
    forall r | r in bound ensures r.split in Splits(corpus) {
      var i :| 0 <= i < |corpus| && bound[i] == r;
      assert corpus[i] in corpus;
    }
  }

  /** Binding makes a sequence trusted exactly when it holds both splits, whole corpus or not. */
  lemma BindIsTrustedIff(corpus: Corpus, version: nat)
    ensures FrozenShadow(Bound(corpus, version)) <==>
              && Splits(corpus) == {"calibration", "holdout"}
              && forall r :: r in corpus ==> r.kind == "shadow" && r.labelsFrozen
  {
    var bound := Bound(corpus, version);
    BoundAt(corpus, version);
    SplitsOfBound(corpus, version);
    forall i | 0 <= i < |corpus| ensures bound[i] in bound && corpus[i] in corpus {
    }
    if corpus == [] {
      assert "holdout" !in Splits(corpus);
    }
  }

  /** A single split, bound again by itself, is never trusted. */
  lemma SubsetIsNeverTrusted(corpus: Corpus, version: nat, split: string)
    requires forall r :: r in corpus ==> r.split == split
    ensures !FrozenShadow(Bound(corpus, version))
  {
    BindIsTrustedIff(corpus, version);
    var splits := Splits(corpus);
    assert "calibration" in splits && "holdout" in splits ==> "calibration" == split == "holdout";
  }

  ghost predicate SameContent(corpus: Corpus, other: Corpus) {
    |other| == |corpus| && forall i :: 0 <= i < |corpus| ==> other[i].(provenance := None) == corpus[i].(provenance := None)
  }

  /** Records that carry the provenance of a trusted corpus are trusted only with that very content, in that very order. */
  lemma TamperedCorpusIsRejected(corpus: Corpus, other: Corpus, r: Record, q: Record)
    requires FrozenShadow(corpus) && r in corpus && q in other && q.provenance == r.provenance
    ensures FrozenShadow(other) ==> SameContent(corpus, other)
  {
    SameArtifactSameContent(corpus, other);
  }

  lemma SameArtifactSameContent(corpus: Corpus, other: Corpus)
    ensures Artifact(other) == Artifact(corpus) <==> SameContent(corpus, other)
  {
    if Artifact(other) == Artifact(corpus) {
      assert |Artifact(other)| == |Artifact(corpus)|;
      forall i | 0 <= i < |corpus| ensures other[i].(provenance := None) == corpus[i].(provenance := None) {
        assert Artifact(other)[i] == Artifact(corpus)[i];
      }
    }
  }

  /** One record that is not a frozen shadow record of the live program spoils the trust in the whole corpus. */
  lemma TrustNeedsAll(corpus: Corpus, r: Record)
    requires FrozenShadow(corpus) && r in corpus
    ensures r.kind == "shadow" && r.labelsFrozen && r.provenance.Some?
    ensures r.provenance.value.kind == "installed_live_shadow" && r.provenance.value.installed
    ensures r.provenance.value.mode == "SHADOW" && r.provenance.value.frozen
    ensures r.provenance.value.scenarios == Scenarios(corpus) && r.provenance.value.labels == Labels(corpus)
  {
  }

  /** Any difference from what was frozen is detected, and what is served carries the version of its manifest. */
  lemma DriftIsDetected(rows: Rows, scope: Scope, corpus: Corpus, version: nat)
    ensures var r := CorpusAgainst(rows, scope, ManifestOf(corpus, version));
            && (r.Ok? <==> SameContent(corpus, Records(rows, scope)))
            && (r.Err? ==> r == Err(Mismatch))
            && (r.Ok? ==> forall x :: x in r.value ==>
                            x.provenance.Some? && x.provenance.value.version == version
                            && x.provenance.value.scenarios == Scenarios(corpus) && x.provenance.value.labels == Labels(corpus))
  {
    SameArtifactSameContent(corpus, Records(rows, scope));
  }

  // ---------------------------------------------------------------- what a review says

  /** The first thing that is wrong with a review of this row, or None. */
  ghost predicate Objection(row: Row, verdict: Verdict, categories: seq<string>, correction: Option<Label>, e: Option<Error>) {
    var chosen := if categories == [] then row.capture.suggested else categories;
    if row.frozen then e == Some(if row.split == Some(Holdout) then HoldoutFrozen else CalibrationFrozen)
    else if row.verdict.Some? then e == Some(AlreadyReviewed)
    else if exists c :: c in chosen && c !in SCENES then e == Some(UnknownCategory)
    else if verdict != Insufficient && chosen == [] then e == Some(NoCategories)
    else if verdict == Unreasonable && correction.None? then e == Some(NoCorrection)
    else if verdict != Unreasonable && correction.Some? then e == Some(UnexpectedCorrection)
    else e == None
  }

  /** What the reviewed row becomes. */
  function Judgement(row: Row, verdict: Verdict, categories: seq<string>, correction: Option<Label>): Row {
    row.(verdict := Some(verdict),
         categories := if categories == [] then row.capture.suggested else Distinct(categories),
         truth := if verdict == Reasonable then Some(row.capture.predicted) else correction)
  }

  lemma ReviewedRowMeans(row: Row, verdict: Verdict, categories: seq<string>, correction: Option<Label>)
    ensures var r := ReviewedRow(row, verdict, categories, correction);
            && Objection(row, verdict, categories, correction, if r.Err? then Some(r.error) else None)
            && (r.Ok? ==> r.value == Judgement(row, verdict, categories, correction))
  {
    SameValues(categories);
  }

  lemma FindFinds(rows: Rows, row: Row)
    requires DistinctIds(rows) && row in rows
    ensures var k := Find(rows, row.capture.id); k < |rows| && rows[k] == row
  {
    var i :| 0 <= i < |rows| && rows[i] == row;
    var k := Find(rows, row.capture.id);
    assert rows[k] in rows;
  }

  lemma ReviewedMissingIff(rows: Rows, id: string, within: Option<Scope>, verdict: Verdict, categories: seq<string>, correction: Option<Label>)
    requires DistinctIds(rows)
    ensures Reviewed(rows, id, within, verdict, categories, correction) == Err(Missing) <==>
              forall q :: q in rows && q.capture.id == id ==> within.Some? && within.value != q.capture.scope
  {
    forall q | q in rows && q.capture.id == id ensures rows[Find(rows, id)] == q {
      FindFinds(rows, q);
    }
    var k := Find(rows, id);
    if k < |rows| {
      assert rows[k] in rows;
      ReviewedRowMeans(rows[k], verdict, categories, correction);
    }
  }

  /** Exactly one row changes: it gets the verdict, the categories without repetition, and the label the verdict stands for. */
  lemma ReviewedMeans(
    rows: Rows, id: string, within: Option<Scope>, verdict: Verdict, categories: seq<string>, correction: Option<Label>, row: Row)
    requires RowsInv(rows) && row in rows && row.capture.id == id && (within.None? || within.value == row.capture.scope)
    ensures var r := Reviewed(rows, id, within, verdict, categories, correction);
            && Objection(row, verdict, categories, correction, if r.Err? then Some(r.error) else None)
            && (r.Ok? ==> |r.value| == |rows| && forall i :: 0 <= i < |rows| ==>
                            r.value[i] == if rows[i] == row then Judgement(row, verdict, categories, correction) else rows[i])
  {
    FindFinds(rows, row);
    ReviewedRowMeans(row, verdict, categories, correction);
    var k := Find(rows, id);
    forall i | 0 <= i < |rows| && i != k ensures rows[i] != rows[k] {
      RowsDiffer(rows, i, k);
    }
  }

  lemma RowsDiffer(rows: Rows, i: nat, k: nat)
    requires Ordered(rows) && i < |rows| && k < |rows| && i != k
    ensures rows[i] != rows[k]
  {
    assert i < k ==> Before(rows[i].capture.Key(), rows[k].capture.Key());
    assert k < i ==> Before(rows[k].capture.Key(), rows[i].capture.Key());
  }

  // ---------------------------------------------------------------- what a freeze selects

  /** A live decision of the shadow mode that was judged, and not found insufficient. */
  predicate IsLive(r: Row, scope: Scope) {
    && r.capture.scope == scope && r.capture.installed && r.capture.mode == "SHADOW"
    && r.verdict in {Some(Reasonable), Some(Unreasonable)}
  }

  ghost function Live(rows: Rows, scope: Scope): set<Row> {
    set r | r in rows && IsLive(r, scope)
  }

  ghost function Covering(rows: Rows, scope: Scope, category: string): set<Row> {
    set r | r in rows && IsLive(r, scope) && category in r.categories
  }

  lemma FirstIsNew(rows: Rows)
    requires Ordered(rows) && rows != []
    ensures rows[0] !in rows[1..]
  {
    if rows[0] in rows[1..] {
      FirstIsBefore(rows, rows[0]);
    }
  }

  /** As many rows are chosen as are live. */
  lemma {:induction false} ChosenCounts(rows: Rows, scope: Scope)
    requires Ordered(rows)
    ensures |Chosen(rows, scope)| == |Live(rows, scope)|
  {
    if rows != [] {
      var rest := rows[1..];
      assert rows == [rows[0]] + rest;
      FirstIsNew(rows);
      ChosenCounts(rest, scope);
      LiveCons(rows[0], rest, scope);
    }
  }

  lemma LiveCons(row: Row, rest: Rows, scope: Scope)
    requires row !in rest
    ensures |Live([row] + rest, scope)| == |Live(rest, scope)| + if IsLive(row, scope) then 1 else 0
  {
    assert row !in Live(rest, scope);
    assert Live([row] + rest, scope) == Live(rest, scope) + if IsLive(row, scope) then {row} else {};
  }

  lemma {:induction false} CoverageCounts(rows: Rows, scope: Scope, category: string)
    requires Ordered(rows)
    ensures Coverage(rows, scope, category) == |Covering(rows, scope, category)|
  {
    if rows != [] {
      var rest := rows[1..];
      assert rows == [rows[0]] + rest;
      FirstIsNew(rows);
      CoverageCounts(rest, scope, category);
      CoveringCons(rows[0], rest, scope, category);
    }
  }

  lemma CoveringCons(row: Row, rest: Rows, scope: Scope, category: string)
    requires row !in rest
    ensures |Covering([row] + rest, scope, category)| ==
            |Covering(rest, scope, category)| + if IsLive(row, scope) && category in row.categories then 1 else 0
  {
    assert row !in Covering(rest, scope, category);
    assert Covering([row] + rest, scope, category) ==
           Covering(rest, scope, category) + if IsLive(row, scope) && category in row.categories then {row} else {};
  }

  /** A freeze takes all live decisions, or refuses because they, or those of a scene, are too few. */
  lemma SelectedIff(rows: Rows, scope: Scope, config: ReleaseConfig)
    requires Ordered(rows)
    ensures var r := Selected(rows, scope, config);
            && (r == Err(TooFew) <==> |Live(rows, scope)| < config.minimumReviewed)
            && (r == Err(Uncovered) <==>
                  && |Live(rows, scope)| >= config.minimumReviewed
                  && exists c :: c in config.sceneMinimums && |Covering(rows, scope, c)| < config.sceneMinimums[c])
            && (r.Err? ==> r.error in {TooFew, Uncovered})
            && (r.Ok? ==> forall k :: k in r.value.keys <==> exists q :: q in rows && IsLive(q, scope) && q.capture.Key() == k)
  {
    ChosenCounts(rows, scope);
    ChosenOf(rows, scope);
    forall c ensures Coverage(rows, scope, c) == |Covering(rows, scope, c)| {
      CoverageCounts(rows, scope, c);
    }
  }

  // ---------------------------------------------------------------- the repository

  /** Marking one row at a time, in order, is the whole marking. */
  lemma MarkedNext(rows: Rows, selection: Selection, i: nat)
    requires i < |selection.keys| && forall a, b :: 0 <= a < b < |selection.keys| ==> selection.keys[a] != selection.keys[b]
    ensures var upTo := Selection(selection.keys[..i], selection.calibration);
            var one := Selection([selection.keys[i]], if i < selection.calibration then 1 else 0);
            Marked(Marked(rows, upTo), one) == Marked(rows, Selection(selection.keys[..i + 1], selection.calibration))
  {
    var upTo := Selection(selection.keys[..i], selection.calibration);
    var one := Selection([selection.keys[i]], if i < selection.calibration then 1 else 0);
    var next := Selection(selection.keys[..i + 1], selection.calibration);
    MarkedAt(rows, upTo);
    MarkedAt(Marked(rows, upTo), one);
    MarkedAt(rows, next);
    forall j | 0 <= j < |rows| ensures MarkedRow(MarkedRow(rows[j], upTo), one) == MarkedRow(rows[j], next) {
      MarkedRowNext(rows[j], selection, i);
    }
  }

  lemma MarkedRowNext(row: Row, selection: Selection, i: nat)
    requires i < |selection.keys| && forall a, b :: 0 <= a < b < |selection.keys| ==> selection.keys[a] != selection.keys[b]
    ensures var upTo := Selection(selection.keys[..i], selection.calibration);
            var one := Selection([selection.keys[i]], if i < selection.calibration then 1 else 0);
            MarkedRow(MarkedRow(row, upTo), one) == MarkedRow(row, Selection(selection.keys[..i + 1], selection.calibration))
  {
    var upTo := Selection(selection.keys[..i], selection.calibration);
    var one := Selection([selection.keys[i]], if i < selection.calibration then 1 else 0);
    var next := Selection(selection.keys[..i + 1], selection.calibration);
    var key := row.capture.Key();
    assert next.keys == upTo.keys + [selection.keys[i]];
    if key == selection.keys[i] {
      assert next.keys[i] == key && one.keys[0] == key;
      assert Calibrates(one, key) <==> i < selection.calibration;
      assert Calibrates(next, key) <==> i < selection.calibration;
    } else if key in upTo.keys {
      var j :| 0 <= j < i && upTo.keys[j] == key;
      assert next.keys[j] == key;
      assert forall a :: 0 <= a < i ==> next.keys[a] == upTo.keys[a];
    }
  }

  class ShadowReviewRepository {
    var rows: Rows
    var manifests: Manifests

    ghost predicate Valid()
      reads this
    {
      RowsInv(rows) && ManifestsInv(rows, manifests)
    }

    constructor ()
      ensures Valid() && rows == [] && manifests == map[]
    {
      rows, manifests := [], map[];
    }

    method Record(capture: Capture) returns (r: Result<Row, Error>)
      requires Valid()
      modifies this`rows
      ensures Valid()
      ensures r.Ok? <==> Recorded(old(rows), capture).Ok?
      ensures rows == OrElse(Recorded(old(rows), capture), old(rows))
      ensures r.Ok? ==> r.value in rows && r.value.capture == capture
    {
      InsertedOf(rows, capture);
      GentleKeepsManifests(rows, Inserted(rows, capture), manifests);
      var k := Find(rows, capture.id);
      if k < |rows| {
        if rows[k].capture != capture {
          return Err(Conflict);
        }
        return Ok(rows[k]);
      }
      var row := Row(capture, None, [], None, None, false);
      forall r | r in rows ensures r.capture.id != capture.id {
        FoundIfThere(rows, r);
      }
      PlacedOf(rows, row);
      rows := Placed(rows, row);
      return Ok(row);
    }

    method Review(id: string, within: Option<Scope>, verdict: Verdict, categories: seq<string>, correction: Option<Label>)
      returns (r: Result<Row, Error>)
      requires Valid()
      modifies this`rows
      ensures Valid()
      ensures rows == OrElse(Reviewed(old(rows), id, within, verdict, categories, correction), old(rows))
      ensures match Reviewed(old(rows), id, within, verdict, categories, correction)
              case Ok(_) => r.Ok? && r.value in rows && r.value.capture.id == id && r.value.verdict == Some(verdict)
              case Err(e) => r == Err(e)
    {
      ReviewedOf(rows, id, within, verdict, categories, correction);
      GentleKeepsManifests(rows, OrElse(Reviewed(rows, id, within, verdict, categories, correction), rows), manifests);
      var k := Find(rows, id);
      if k == |rows| || (within.Some? && within.value != rows[k].capture.scope) {
        return Err(Missing);
      }
      ReviewedRowOf(rows[k], verdict, categories, correction);
      r := ReviewedRow(rows[k], verdict, categories, correction);
      if r.Ok? {
        assert rows[k := r.value][k] == r.value;
        rows := rows[k := r.value];
      }
    }

    /** A freeze call that no other call overlaps. */
    method Freeze(scope: Scope, config: ReleaseConfig) returns (r: Result<Corpus, Error>)
      requires Valid() && config.Valid()
      modifies this
      ensures Valid()
      ensures Latest(old(manifests), scope).Some? ==> rows == old(rows) && manifests == old(manifests)
      ensures Latest(old(manifests), scope).None? ==>
        match Selected(old(rows), scope, config)
        case Err(e) => r == Err(e) && rows == old(rows) && manifests == old(manifests)
        case Ok(selection) =>
          rows == Marked(old(rows), selection) && manifests == Registered(old(manifests), scope, Records(rows, scope))
      ensures r.Ok? <==> Latest(manifests, scope).Some?
      ensures r.Ok? ==> r == FrozenCorpus(rows, manifests, scope)
      ensures r == Err(TooFew) <==> Latest(old(manifests), scope).None? && |Live(old(rows), scope)| < config.minimumReviewed
      ensures r == Err(Uncovered) <==>
                && Latest(old(manifests), scope).None? && |Live(old(rows), scope)| >= config.minimumReviewed
                && exists c :: c in config.sceneMinimums && |Covering(old(rows), scope, c)| < config.sceneMinimums[c]
      ensures r.Err? ==> r.error in {TooFew, Uncovered}
    {
      SelectedIff(rows, scope, config);
      assert ManifestInv(rows, manifests, scope);
      if Latest(manifests, scope).Some? {
        return FrozenCorpus(rows, manifests, scope);
      }
      var found := Selected(rows, scope, config);
      if found.Err? {
        return Err(found.error);
      }
      SelectedOf(rows, scope, config);
      MarkedKeepsRows(rows, scope, found.value);
      CommitKeepsManifests(rows, manifests, scope, found.value);
      MarkSelected(found.value, scope);
      var corpus := Records(rows, scope);
      manifests := Registered(manifests, scope, corpus);
      assert ManifestInv(rows, manifests, scope);
      r := FrozenCorpus(rows, manifests, scope);
    }

    method MarkSelected(selection: Selection, scope: Scope)
      requires RowsInv(rows) && SelectionInv(rows, scope, selection)
      modifies this`rows
      ensures rows == Marked(old(rows), selection)
    {
      ghost var before := rows;
      forall a, b | 0 <= a < b < |selection.keys| ensures selection.keys[a] != selection.keys[b] {
        BeforeIsTotal(selection.keys[a], selection.keys[b]);
      }
      MarkedNothing(rows, selection.calibration);
      for i := 0 to |selection.keys|
        invariant rows == Marked(before, Selection(selection.keys[..i], selection.calibration))
      {
        MarkedNext(before, selection, i);
        rows := Marked(rows, Selection([selection.keys[i]], if i < selection.calibration then 1 else 0));
      }
      assert selection.keys[..|selection.keys|] == selection.keys;
    }
  }

  lemma MarkedNothing(rows: Rows, calibration: nat)
    ensures Marked(rows, Selection([], calibration)) == rows
  {
    MarkedAt(rows, Selection([], calibration));
  }
}
