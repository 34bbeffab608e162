/** The social governor: hard gates, then the most useful eligible intention.  Utilities are reals. */
module Governor {
  import opened Basics
  import opened Sorting

  datatype Kind = OBSERVE | BOUNDARY | CAPABILITY | ACCEPT_TASK | OTHER_KIND

  /** An empty target or topic means none. */
  datatype Candidate = Candidate(
    id: string, kind: Kind, target: string, topic: string, expiresAt: int,
    obligation: real, relevance: real, relationalValue: real, continuityValue: real, novelty: real, urgency: real,
    personaFit: real, stateFit: real, informationGain: real,
    disruptionCost: real, uncertaintyCost: real, repetitionCost: real, resourceCost: real, risk: real)
  {
    function Utility(): real {
      (obligation + relevance + relationalValue + continuityValue + novelty + urgency + personaFit + stateFit + informationGain)
        - (disruptionCost + uncertaintyCost + repetitionCost + resourceCost + risk)
    }
  }

  datatype Context = Context(
    now: int, targets: set<string>, topics: set<string>, privacyAllowed: bool, boundaryActive: bool, paused: bool,
    platformAvailable: bool, capabilityAllowed: bool, forceObserve: bool, rateLimitedUntil: Option<int>, minimumUtility: real)
  {
    predicate Limited() {
      rateLimitedUntil.Some? && rateLimitedUntil.value > now
    }
  }

  datatype Reason = RuntimePaused | PlatformUnavailable | PrivacyBlocked | BoundaryActive | CandidateExpired | WrongTarget | WrongTopic
    | CapabilityNotAllowed | ForcedObserve | NoEligibleIntention | ObserveIntention | RateLimited | UtilityBelowThreshold
    | DifferentTarget | DifferentTopic | LowerUtility | SelectedBySocialUtility

  datatype Rejected = Rejected(id: string, reasons: seq<Reason>)

  datatype Outcome = ACT | DEFER | OBSERVE_ONLY | SILENCE

  datatype Decision = Decision(
    outcome: Outcome, selected: seq<string>, rejected: seq<Rejected>, reasons: seq<Reason>, reconsiderAt: Option<int>)

  type Candidates = seq<Candidate>

  function If(b: bool, r: Reason): seq<Reason> {
    if b then [r] else []
  }

  function HardReasons(c: Candidate, ctx: Context): seq<Reason> {
    If(ctx.paused, RuntimePaused)
    + If(!ctx.platformAvailable, PlatformUnavailable)
    + If(!ctx.privacyAllowed && c.kind != BOUNDARY, PrivacyBlocked)
    + If(ctx.boundaryActive && c.kind != BOUNDARY && c.kind != OBSERVE, BoundaryActive)
    + If(c.expiresAt <= ctx.now, CandidateExpired)
    + If(c.target != "" && c.target !in ctx.targets, WrongTarget)
    + If(c.topic != "" && c.topic !in ctx.topics, WrongTopic)
    + If((c.kind == CAPABILITY || c.kind == ACCEPT_TASK) && !ctx.capabilityAllowed, CapabilityNotAllowed)
  }

  predicate Passes(c: Candidate, ctx: Context) {
    HardReasons(c, ctx) == []
  }

  /** May be selected: passes every gate and is not a mere observation. */
  predicate Selectable(c: Candidate, ctx: Context) {
    Passes(c, ctx) && c.kind != OBSERVE
  }

  // ---------------------------------------------------------------- ranking

  predicate RankedBefore(a: Candidate, b: Candidate) {
    a.Utility() > b.Utility() || (a.Utility() == b.Utility() && TextLeq(a.id, b.id))
  }

  lemma RankIsTotal(a: Candidate, b: Candidate)
    ensures RankedBefore(a, b) || RankedBefore(b, a)
    ensures RankedBefore(a, b) && RankedBefore(b, a) ==> a.id == b.id
  {
    TextLeqIsTotal(a.id, b.id);
  }

  predicate RanksAhead(a: Candidate, b: Candidate) {
    !RankedBefore(b, a)
  }

  lemma RanksAheadIsKeyOrder()
    ensures IsKeyOrder(RanksAhead)
  {
    forall a, b ensures RanksAhead(a, b) ==> !RanksAhead(b, a) {
      RankIsTotal(a, b);
    }
    forall a, b, c ensures RanksAhead(a, c) ==> RanksAhead(a, b) || RanksAhead(b, c) {
      if RankedBefore(c, b) && RankedBefore(b, a) && a.Utility() == b.Utility() == c.Utility() {
        TextLeqIsTransitive(c.id, b.id, a.id);
      }
    }
  }

  function Ranked(cs: Candidates): Candidates {
    Sorted(cs, RanksAhead)
  }

  predicate InRankOrder(cs: Candidates) {
    forall i, j :: 0 <= i < j < |cs| ==> RankedBefore(cs[i], cs[j])
  }

  lemma RankedOf(cs: Candidates)
    ensures InRankOrder(Ranked(cs)) && multiset(Ranked(cs)) == multiset(cs)
  {
    RanksAheadIsKeyOrder();
    SortedOf(cs, RanksAhead);
  }

  // ---------------------------------------------------------------- the decision

  function Eligible(cs: Candidates, ctx: Context): Candidates {
    if cs == [] then []
    else
      var last := cs[|cs| - 1];
      Eligible(cs[..|cs| - 1], ctx) + if Passes(last, ctx) then [last] else []
  }

  function Acting(cs: Candidates): Candidates {
    if cs == [] then []
    else
      var last := cs[|cs| - 1];
      Acting(cs[..|cs| - 1]) + if last.kind != OBSERVE then [last] else []
  }

  /** What the loops collect: the candidates that may act, best first. */
  function Contenders(cs: Candidates, ctx: Context): Candidates {
    Ranked(Acting(Eligible(cs, ctx)))
  }

  /** Adds what is new, in order. */
  function Extended(target: seq<Reason>, values: seq<Reason>): seq<Reason>
    decreases |values|
  {
    if values == [] then target
    else Extended(if values[0] in target then target else target + [values[0]], values[1..])
  }

  function GateReasons(cs: Candidates, ctx: Context): seq<Reason> {
    if cs == [] then [] else Extended(GateReasons(cs[..|cs| - 1], ctx), HardReasons(cs[|cs| - 1], ctx))
  }

  function GateRejected(cs: Candidates, ctx: Context): seq<Rejected> {
    if cs == [] then []
    else
      var last := cs[|cs| - 1];
      GateRejected(cs[..|cs| - 1], ctx) + if Passes(last, ctx) then [] else [Rejected(last.id, HardReasons(last, ctx))]
  }

  function RejectedFor(cs: Candidates, why: Candidate -> Reason): (r: seq<Rejected>)
    ensures |r| == |cs| && forall i :: 0 <= i < |cs| ==> r[i] == Rejected(cs[i].id, [why(cs[i])])
  {
    if cs == [] then [] else RejectedFor(cs[..|cs| - 1], why) + [Rejected(cs[|cs| - 1].id, [why(cs[|cs| - 1])])]
  }

  function RejectedAll(cs: Candidates, reason: Reason): seq<Rejected> {
    seq(|cs|, i requires 0 <= i < |cs| => Rejected(cs[i].id, [reason]))
  }

  function WhyNot(top: Candidate): Candidate -> Reason {
    (c: Candidate) =>
      if c.target != top.target then DifferentTarget else if c.topic != top.topic then DifferentTopic else LowerUtility
  }

  function Decided(cs: Candidates, ctx: Context): Decision {
    if ctx.forceObserve then
      Decision(OBSERVE_ONLY, [], RejectedAll(Acting(cs), ForcedObserve), [ForcedObserve], None)
    else
      var eligible := Eligible(cs, ctx);
      var rejected := GateRejected(cs, ctx);
      var ranked := Contenders(cs, ctx);
      if eligible == [] then
        var reasons := GateReasons(cs, ctx);
        Decision(SILENCE, [], rejected, if reasons == [] then [NoEligibleIntention] else reasons, None)
      else if ranked == [] then Decision(OBSERVE_ONLY, [], rejected, [ObserveIntention], None)
      else if ctx.Limited() then Decision(DEFER, [], rejected, [RateLimited], ctx.rateLimitedUntil)
      else if ranked[0].Utility() < ctx.minimumUtility then
        Decision(SILENCE, [], rejected + RejectedAll(ranked, UtilityBelowThreshold), [UtilityBelowThreshold], None)
      else
        Decision(ACT, [ranked[0].id], rejected + RejectedFor(ranked[1..], WhyNot(ranked[0])), [SelectedBySocialUtility], None)
  }

  lemma {:induction false} EligibleHas(cs: Candidates, ctx: Context, c: Candidate)
    ensures c in Eligible(cs, ctx) <==> c in cs && Passes(c, ctx)
  {
    if cs != [] {
      assert cs == cs[..|cs| - 1] + [cs[|cs| - 1]];
      EligibleHas(cs[..|cs| - 1], ctx, c);
    }
  }

  lemma {:induction false} ActingHas(cs: Candidates, c: Candidate)
    ensures c in Acting(cs) <==> c in cs && c.kind != OBSERVE
  {
    if cs != [] {
      assert cs == cs[..|cs| - 1] + [cs[|cs| - 1]];
      ActingHas(cs[..|cs| - 1], c);
    }
  }

  lemma {:induction false} GateRejectedHas(cs: Candidates, ctx: Context, r: Rejected)
    ensures r in GateRejected(cs, ctx) <==> exists c :: c in cs && !Passes(c, ctx) && r == Rejected(c.id, HardReasons(c, ctx))
  {
    if cs != [] {
      assert cs == cs[..|cs| - 1] + [cs[|cs| - 1]];
      GateRejectedHas(cs[..|cs| - 1], ctx, r);
    }
  }

  lemma ContendersOf(cs: Candidates, ctx: Context)
    ensures forall c :: c in Eligible(cs, ctx) <==> c in cs && Passes(c, ctx)
    ensures forall c :: c in Contenders(cs, ctx) <==> c in cs && Selectable(c, ctx)
    ensures InRankOrder(Contenders(cs, ctx))
  {
    var acting := Acting(Eligible(cs, ctx));
    RankedOf(acting);
    forall c ensures c in Eligible(cs, ctx) <==> c in cs && Passes(c, ctx) {
      EligibleHas(cs, ctx, c);
    }
    forall c ensures c in Contenders(cs, ctx) <==> c in cs && Selectable(c, ctx) {
      ActingHas(Eligible(cs, ctx), c);
      assert c in Contenders(cs, ctx) <==> c in multiset(acting);
    }
  }

  // ---------------------------------------------------------------- what a decision means

  /** The outcome, said without any order of the candidates. */
  ghost function OutcomeOf(cs: set<Candidate>, ctx: Context): Outcome {
    if ctx.forceObserve then OBSERVE_ONLY
    else if forall c :: c in cs ==> !Passes(c, ctx) then SILENCE
    else if forall c :: c in cs ==> !Selectable(c, ctx) then OBSERVE_ONLY
    else if ctx.Limited() then DEFER
    else if exists c :: c in cs && Selectable(c, ctx) && c.Utility() >= ctx.minimumUtility then ACT
    else SILENCE
  }

  ghost predicate Best(cs: set<Candidate>, ctx: Context, top: Candidate) {
    && top in cs && Selectable(top, ctx)
    && forall c :: c in cs && Selectable(c, ctx) ==>
         top.Utility() > c.Utility() || (top.Utility() == c.Utility() && TextLeq(top.id, c.id))
  }

  function AsSet(cs: Candidates): set<Candidate> {
    set c | c in cs
  }

  predicate DistinctIds(cs: Candidates) {
    forall i, j :: 0 <= i < j < |cs| ==> cs[i].id != cs[j].id
  }

  lemma TopIsBest(cs: Candidates, ctx: Context)
    ensures Contenders(cs, ctx) != [] ==> Best(AsSet(cs), ctx, Contenders(cs, ctx)[0])
    ensures Contenders(cs, ctx) == [] <==> forall c :: c in cs ==> !Selectable(c, ctx)
    ensures Eligible(cs, ctx) == [] <==> forall c :: c in cs ==> !Passes(c, ctx)
  {
    ContendersOf(cs, ctx);
    var ranked := Contenders(cs, ctx);
    assert Eligible(cs, ctx) != [] ==> Eligible(cs, ctx)[0] in Eligible(cs, ctx);
    if ranked != [] {
      assert ranked[0] in ranked;
      forall c | c in cs && Selectable(c, ctx) ensures RankedBefore(ranked[0], c) {
        var i :| 0 <= i < |ranked| && ranked[i] == c;
        RankIsTotal(c, c);
      }
    }
  }

  /** The outcome depends on the set of candidates alone, and an ACT selects the best of them. */
  lemma DecisionMeans(cs: Candidates, ctx: Context)
    ensures Decided(cs, ctx).outcome == OutcomeOf(AsSet(cs), ctx)
    ensures Decided(cs, ctx).outcome == ACT ==>
              && Contenders(cs, ctx) != [] && Decided(cs, ctx).selected == [Contenders(cs, ctx)[0].id]
              && Best(AsSet(cs), ctx, Contenders(cs, ctx)[0]) && Contenders(cs, ctx)[0].Utility() >= ctx.minimumUtility
    ensures Decided(cs, ctx).outcome != ACT ==> Decided(cs, ctx).selected == []
    ensures Decided(cs, ctx).outcome == DEFER <==> Decided(cs, ctx).reconsiderAt.Some?
  {
    OutcomeMeans(cs, ctx);
    if Contenders(cs, ctx) != [] {
      TopIsBest(cs, ctx);
    }
  }

  lemma OutcomeMeans(cs: Candidates, ctx: Context)
    ensures Decided(cs, ctx).outcome == OutcomeOf(AsSet(cs), ctx)
  {
    OutcomeIs(cs, ctx);
    NoneOfThem(cs, ctx);
    if Contenders(cs, ctx) != [] {
      TopReaches(cs, ctx);
    }
  }

  lemma NoneOfThem(cs: Candidates, ctx: Context)
    ensures Contenders(cs, ctx) == [] <==> forall c :: c in AsSet(cs) ==> !Selectable(c, ctx)
    ensures Eligible(cs, ctx) == [] <==> forall c :: c in AsSet(cs) ==> !Passes(c, ctx)
  {
    TopIsBest(cs, ctx);
  }

  lemma OutcomeIs(cs: Candidates, ctx: Context)
    ensures Decided(cs, ctx).outcome ==
            if ctx.forceObserve then OBSERVE_ONLY
            else if Eligible(cs, ctx) == [] then SILENCE
            else if Contenders(cs, ctx) == [] then OBSERVE_ONLY
            else if ctx.Limited() then DEFER
            else if Contenders(cs, ctx)[0].Utility() < ctx.minimumUtility then SILENCE else ACT
  {
  }

  /** Some contender is worth the minimum exactly when the first one is. */
  lemma TopReaches(cs: Candidates, ctx: Context)
    requires Contenders(cs, ctx) != []
    ensures Contenders(cs, ctx)[0].Utility() >= ctx.minimumUtility <==>
              exists c :: c in AsSet(cs) && Selectable(c, ctx) && c.Utility() >= ctx.minimumUtility
  {
    TopIsBest(cs, ctx);
  }

  /** There is one best candidate at most. */
  lemma BestIsUnique(cs: Candidates, ctx: Context, a: Candidate, b: Candidate)
    requires Best(AsSet(cs), ctx, a) && Best(AsSet(cs), ctx, b)
    ensures a.id == b.id
  {
    RankIsTotal(a, b);
  }

  /** The choice does not depend on the order in which the candidates come. */
  lemma OrderDoesNotMatter(a: Candidates, b: Candidates, ctx: Context)
    requires AsSet(a) == AsSet(b)
    ensures Decided(a, ctx).outcome == Decided(b, ctx).outcome
    ensures Decided(a, ctx).selected == Decided(b, ctx).selected
    ensures Decided(a, ctx).reconsiderAt == Decided(b, ctx).reconsiderAt
  {
    DecisionMeans(a, ctx);
    DecisionMeans(b, ctx);
    if Decided(a, ctx).outcome == ACT {
      BestIsUnique(b, ctx, Contenders(a, ctx)[0], Contenders(b, ctx)[0]);
    }
  }

  lemma {:induction false} EligibleDistinct(cs: Candidates, ctx: Context)
    requires DistinctIds(cs)
    ensures DistinctIds(Eligible(cs, ctx))
  {
    if cs != [] {
      var rest := cs[..|cs| - 1];
      EligibleDistinct(rest, ctx);
      forall c | c in Eligible(rest, ctx) ensures c.id != cs[|cs| - 1].id {
        EligibleHas(rest, ctx, c);
        var i :| 0 <= i < |rest| && rest[i] == c;
        assert cs[i] == c;
      }
    }
  }

  lemma {:induction false} ActingDistinct(cs: Candidates)
    requires DistinctIds(cs)
    ensures DistinctIds(Acting(cs))
  {
    if cs != [] {
      var rest := cs[..|cs| - 1];
      ActingDistinct(rest);
      forall c | c in Acting(rest) ensures c.id != cs[|cs| - 1].id {
        ActingHas(rest, c);
        var i :| 0 <= i < |rest| && rest[i] == c;
        assert cs[i] == c;
      }
    }
  }

  lemma SameId(cs: Candidates, a: Candidate, b: Candidate)
    requires DistinctIds(cs) && a in cs && b in cs && a.id == b.id
    ensures a == b
  {
  }

  lemma ContendersDistinct(cs: Candidates, ctx: Context)
    requires DistinctIds(cs)
    ensures DistinctIds(Contenders(cs, ctx))
  {
    var acting := Acting(Eligible(cs, ctx));
    EligibleDistinct(cs, ctx);
    ActingDistinct(Eligible(cs, ctx));
    ContendersOf(cs, ctx);
    RankedOf(acting);
    var ranked := Contenders(cs, ctx);
    forall i, j | 0 <= i < j < |ranked| ensures ranked[i].id != ranked[j].id {
      if ranked[i].id == ranked[j].id {
        assert ranked[i] in cs && ranked[j] in cs;
        SameId(cs, ranked[i], ranked[j]);
        TwiceIn(ranked, i, j);
        OnceIn(acting, ranked[i]);
      }
    }
  }

  lemma GateRejectedIff(cs: Candidates, ctx: Context, c: Candidate)
    requires DistinctIds(cs) && c in cs
    ensures (exists r :: r in GateRejected(cs, ctx) && r.id == c.id) <==> !Passes(c, ctx)
  {
    if !Passes(c, ctx) {
      GateRejectedHas(cs, ctx, Rejected(c.id, HardReasons(c, ctx)));
    }
    forall r | r in GateRejected(cs, ctx) && r.id == c.id ensures !Passes(c, ctx) {
      GateRejectedHas(cs, ctx, r);
      var q :| q in cs && !Passes(q, ctx) && r == Rejected(q.id, HardReasons(q, ctx));
      SameId(cs, q, c);
    }
  }

  lemma LosersIff(cs: Candidates, ctx: Context, c: Candidate)
    requires DistinctIds(cs) && c in cs && Contenders(cs, ctx) != []
    ensures var ranked := Contenders(cs, ctx);
            (exists r :: r in RejectedFor(ranked[1..], WhyNot(ranked[0])) && r.id == c.id)
            <==> Selectable(c, ctx) && c.id != ranked[0].id
  {
    ContendersOf(cs, ctx);
    ContendersDistinct(cs, ctx);
    var ranked := Contenders(cs, ctx);
    var losers := RejectedFor(ranked[1..], WhyNot(ranked[0]));
    if Selectable(c, ctx) && c.id != ranked[0].id {
      var i :| 0 <= i < |ranked| && ranked[i] == c;
      assert losers[i - 1].id == c.id && losers[i - 1] in losers;
    }
    forall r | r in losers && r.id == c.id ensures Selectable(c, ctx) && c.id != ranked[0].id {
      var i :| 0 <= i < |losers| && losers[i] == r;
      assert ranked[i + 1] in ranked && ranked[i + 1].id == c.id;
      SameId(cs, ranked[i + 1], c);
    }
  }

  /** On an ACT every candidate is selected, rejected or a mere observation that passed, and only one of these. */
  lemma ActPartitions(cs: Candidates, ctx: Context, c: Candidate)
    requires DistinctIds(cs) && Decided(cs, ctx).outcome == ACT && c in cs
    ensures var d := Decided(cs, ctx);
            var selected := c.id in d.selected;
            var rejected := exists r :: r in d.rejected && r.id == c.id;
            var observing := Passes(c, ctx) && c.kind == OBSERVE;
            && (selected || rejected || observing)
            && !(selected && rejected) && !(selected && observing) && !(rejected && observing)
  {
    ActRejects(cs, ctx, c);
    var top := Contenders(cs, ctx)[0];
    ContendersOf(cs, ctx);
    assert top in Contenders(cs, ctx);
    if c.id == top.id {
      SameId(cs, c, top);
    }
  }

  lemma ActRejects(cs: Candidates, ctx: Context, c: Candidate)
    requires DistinctIds(cs) && Decided(cs, ctx).outcome == ACT && c in cs
    ensures Contenders(cs, ctx) != [] && Decided(cs, ctx).selected == [Contenders(cs, ctx)[0].id]
    ensures (exists r :: r in Decided(cs, ctx).rejected && r.id == c.id) <==>
              !Passes(c, ctx) || (Selectable(c, ctx) && c.id != Contenders(cs, ctx)[0].id)
  {
    ActMeans(cs, ctx);
    RejectedIff(cs, ctx, c);
  }

  lemma ActMeans(cs: Candidates, ctx: Context)
    requires Decided(cs, ctx).outcome == ACT
    ensures var ranked := Contenders(cs, ctx);
            && ranked != [] && Decided(cs, ctx).selected == [ranked[0].id]
            && Decided(cs, ctx).rejected == GateRejected(cs, ctx) + RejectedFor(ranked[1..], WhyNot(ranked[0]))
  {
  }

  lemma RejectedIff(cs: Candidates, ctx: Context, c: Candidate)
    requires DistinctIds(cs) && c in cs && Contenders(cs, ctx) != []
    ensures var ranked := Contenders(cs, ctx);
            (exists r :: r in GateRejected(cs, ctx) + RejectedFor(ranked[1..], WhyNot(ranked[0])) && r.id == c.id)
            <==> !Passes(c, ctx) || (Selectable(c, ctx) && c.id != ranked[0].id)
  {
    var ranked := Contenders(cs, ctx);
    GateRejectedIff(cs, ctx, c);
    LosersIff(cs, ctx, c);
    EitherHas(GateRejected(cs, ctx), RejectedFor(ranked[1..], WhyNot(ranked[0])), c.id);
  }

  lemma EitherHas(a: seq<Rejected>, b: seq<Rejected>, id: string)
    ensures (exists r :: r in a + b && r.id == id) <==> (exists r :: r in a && r.id == id) || (exists r :: r in b && r.id == id)
  {
  }

  /** Why candidate c is rejected next to the one that acts. */
  predicate RejectedBeside(c: Candidate, ctx: Context, top: Candidate, reasons: seq<Reason>) {
    if !Passes(c, ctx) then reasons == HardReasons(c, ctx)
    else
      && c.kind != OBSERVE && c != top && |reasons| == 1
      && (reasons[0] == DifferentTarget <==> c.target != top.target)
      && (reasons[0] == DifferentTopic <==> c.target == top.target && c.topic != top.topic)
      && (reasons[0] == LowerUtility <==> c.target == top.target && c.topic == top.topic)
  }

  lemma LoserContends(cs: Candidates, ctx: Context, r: Rejected) returns (c: Candidate)
    requires DistinctIds(cs) && Contenders(cs, ctx) != []
    requires r in RejectedFor(Contenders(cs, ctx)[1..], WhyNot(Contenders(cs, ctx)[0]))
    ensures c in Contenders(cs, ctx) && c != Contenders(cs, ctx)[0] && r == Rejected(c.id, [WhyNot(Contenders(cs, ctx)[0])(c)])
  {
    ContendersDistinct(cs, ctx);
    var ranked := Contenders(cs, ctx);
    var losers := RejectedFor(ranked[1..], WhyNot(ranked[0]));
    var i :| 0 <= i < |losers| && losers[i] == r;
    c := ranked[i + 1];
  }

  lemma ContenderLoses(ranked: Candidates, c: Candidate)
    requires c in ranked && c != ranked[0]
    ensures Rejected(c.id, [WhyNot(ranked[0])(c)]) in RejectedFor(ranked[1..], WhyNot(ranked[0]))
  {
    var i :| 0 <= i < |ranked| && ranked[i] == c;
    assert RejectedFor(ranked[1..], WhyNot(ranked[0]))[i - 1] == Rejected(c.id, [WhyNot(ranked[0])(c)]);
  }

  lemma LosersHave(cs: Candidates, ctx: Context, r: Rejected)
    requires DistinctIds(cs) && Contenders(cs, ctx) != []
    ensures var ranked := Contenders(cs, ctx);
            r in RejectedFor(ranked[1..], WhyNot(ranked[0]))
            <==> exists c :: c in cs && Selectable(c, ctx) && c != ranked[0] && r == Rejected(c.id, [WhyNot(ranked[0])(c)])
  {
    ContendersOf(cs, ctx);
    var ranked := Contenders(cs, ctx);
    if r in RejectedFor(ranked[1..], WhyNot(ranked[0])) {
      var c := LoserContends(cs, ctx, r);
    } else {
      forall c | c in ranked && c != ranked[0] ensures r != Rejected(c.id, [WhyNot(ranked[0])(c)]) {
        ContenderLoses(ranked, c);
      }
    }
  }

  lemma WhyNotMeans(c: Candidate, ctx: Context, top: Candidate, r: Rejected)
    requires Selectable(c, ctx) && c != top && r.id == c.id
    ensures r == Rejected(c.id, [WhyNot(top)(c)]) <==> RejectedBeside(c, ctx, top, r.reasons)
  {
    if RejectedBeside(c, ctx, top, r.reasons) {
      assert r.reasons == [r.reasons[0]];
    }
  }

  /** On an ACT the rejections, as a set, do not depend on the order of candidates either. */
  lemma RejectionsMean(cs: Candidates, ctx: Context, r: Rejected)
    requires DistinctIds(cs) && Decided(cs, ctx).outcome == ACT
    ensures Contenders(cs, ctx) != []
    ensures r in Decided(cs, ctx).rejected <==>
              exists c :: c in cs && r.id == c.id && RejectedBeside(c, ctx, Contenders(cs, ctx)[0], r.reasons)
  {
    var ranked := Contenders(cs, ctx);
    LosersHave(cs, ctx, r);
    GateRejectedHas(cs, ctx, r);
    assert Decided(cs, ctx).rejected == GateRejected(cs, ctx) + RejectedFor(ranked[1..], WhyNot(ranked[0]));
    forall c | c in cs && r.id == c.id && Selectable(c, ctx) && c != ranked[0]
      ensures r == Rejected(c.id, [WhyNot(ranked[0])(c)]) <==> RejectedBeside(c, ctx, ranked[0], r.reasons)
    {
      WhyNotMeans(c, ctx, ranked[0], r);
    }
  }

  /** `strict` allows nothing that `loose` forbids, at the same time and rate limit. */
  predicate Tighter(strict: Context, loose: Context) {
    && strict.now == loose.now && strict.rateLimitedUntil == loose.rateLimitedUntil
    && strict.targets <= loose.targets && strict.topics <= loose.topics
    && (strict.privacyAllowed ==> loose.privacyAllowed) && (loose.boundaryActive ==> strict.boundaryActive)
    && (loose.paused ==> strict.paused) && (strict.platformAvailable ==> loose.platformAvailable)
    && (strict.capabilityAllowed ==> loose.capabilityAllowed) && (loose.forceObserve ==> strict.forceObserve)
    && loose.minimumUtility <= strict.minimumUtility
  }

  lemma TighterPassesLess(c: Candidate, strict: Context, loose: Context)
    requires Tighter(strict, loose) && Passes(c, strict)
    ensures Passes(c, loose)
  {
  }

  /** Tightening gates and dropping candidates never turns another outcome into an ACT, nor raises the utility acted on. */
  lemma TighteningNeverActs(cs: Candidates, fewer: Candidates, strict: Context, loose: Context)
    returns (top: Candidate, best: Candidate)
    requires Tighter(strict, loose) && AsSet(fewer) <= AsSet(cs)
    requires Decided(fewer, strict).outcome == ACT
    ensures Decided(cs, loose).outcome == ACT
    ensures Best(AsSet(fewer), strict, top) && Decided(fewer, strict).selected == [top.id]
    ensures Best(AsSet(cs), loose, best) && Decided(cs, loose).selected == [best.id]
    ensures best.Utility() >= top.Utility()
  {
    top := BestOf(fewer, strict);
    TighterPassesLess(top, strict, loose);
    assert top in AsSet(cs) && Selectable(top, loose);
    LooserActs(cs, top, loose);
    best := BestOf(cs, loose);
    assert RankedBefore(best, top);
  }

  lemma BestOf(cs: Candidates, ctx: Context) returns (top: Candidate)
    requires Decided(cs, ctx).outcome == ACT
    ensures Best(AsSet(cs), ctx, top) && Decided(cs, ctx).selected == [top.id] && top.Utility() >= ctx.minimumUtility
    ensures !ctx.forceObserve && !ctx.Limited()
  {
    DecisionMeans(cs, ctx);
    ActIsUnlimited(cs, ctx);
    top := Contenders(cs, ctx)[0];
  }

  lemma ActIsUnlimited(cs: Candidates, ctx: Context)
    requires OutcomeOf(AsSet(cs), ctx) == ACT
    ensures !ctx.forceObserve && !ctx.Limited()
  {
  }

  lemma LooserActs(cs: Candidates, c: Candidate, ctx: Context)
    requires c in AsSet(cs) && Selectable(c, ctx) && c.Utility() >= ctx.minimumUtility
    requires !ctx.forceObserve && !ctx.Limited()
    ensures Decided(cs, ctx).outcome == ACT
  {
    DecisionMeans(cs, ctx);
  }

  // ---------------------------------------------------------------- what the gates and the utility are

  /** When a gate is closed to a candidate: only a boundary passes without privacy, and an observation passes a boundary. */
  predicate Blocks(r: Reason, c: Candidate, ctx: Context) {
    match r
    case RuntimePaused => ctx.paused
    case PlatformUnavailable => !ctx.platformAvailable
    case PrivacyBlocked => !ctx.privacyAllowed && !c.kind.BOUNDARY?
    case BoundaryActive => ctx.boundaryActive && (c.kind.CAPABILITY? || c.kind.ACCEPT_TASK? || c.kind.OTHER_KIND?)
    case CandidateExpired => ctx.now >= c.expiresAt
    case WrongTarget => c.target != "" && c.target !in ctx.targets
    case WrongTopic => c.topic != "" && c.topic !in ctx.topics
    case CapabilityNotAllowed => !ctx.capabilityAllowed && (c.kind.CAPABILITY? || c.kind.ACCEPT_TASK?)
    case _ => false
  }

  /** The order in which reasons are listed. */
  function Position(r: Reason): nat {
    match r
    case RuntimePaused => 0
    case PlatformUnavailable => 1
    case PrivacyBlocked => 2
    case BoundaryActive => 3
    case CandidateExpired => 4
    case WrongTarget => 5
    case WrongTopic => 6
    case CapabilityNotAllowed => 7
    case _ => 8
  }

  /** Reasons in order, all of them before the n-th. */
  ghost predicate ListedUnder(reasons: seq<Reason>, n: nat) {
    && (forall r :: r in reasons ==> Position(r) < n)
    && forall i, j :: 0 <= i < j < |reasons| ==> Position(reasons[i]) < Position(reasons[j])
  }

  function Gate(n: nat): Reason {
    match n
    case 0 => RuntimePaused
    case 1 => PlatformUnavailable
    case 2 => PrivacyBlocked
    case 3 => BoundaryActive
    case 4 => CandidateExpired
    case 5 => WrongTarget
    case 6 => WrongTopic
    case _ => CapabilityNotAllowed
  }

  /** Those of the first n gates that are closed to the candidate. */
  function Told(c: Candidate, ctx: Context, n: nat): seq<Reason> {
    if n == 0 then [] else Told(c, ctx, n - 1) + If(Blocks(Gate(n - 1), c, ctx), Gate(n - 1))
  }

  lemma {:induction false} ToldOf(c: Candidate, ctx: Context, n: nat)
    requires n <= 8
    ensures forall r :: r in Told(c, ctx, n) <==> Blocks(r, c, ctx) && Position(r) < n
    ensures ListedUnder(Told(c, ctx, n), n)
  {
    if n > 0 {
      ToldOf(c, ctx, n - 1);
      assert forall r :: Position(r) == n - 1 <==> r == Gate(n - 1);
    }
  }

  lemma ToldFour(c: Candidate, ctx: Context)
    ensures Told(c, ctx, 4) ==
            If(ctx.paused, RuntimePaused)
            + If(!ctx.platformAvailable, PlatformUnavailable)
            + If(!ctx.privacyAllowed && c.kind != BOUNDARY, PrivacyBlocked)
            + If(ctx.boundaryActive && c.kind != BOUNDARY && c.kind != OBSERVE, BoundaryActive)
  {
    assert Told(c, ctx, 1) == If(ctx.paused, RuntimePaused);
    assert Told(c, ctx, 2) == Told(c, ctx, 1) + If(!ctx.platformAvailable, PlatformUnavailable);
    assert Told(c, ctx, 3) == Told(c, ctx, 2) + If(!ctx.privacyAllowed && c.kind != BOUNDARY, PrivacyBlocked);
  }

  lemma ToldRest(c: Candidate, ctx: Context)
    ensures Told(c, ctx, 8) ==
            Told(c, ctx, 4)
            + If(c.expiresAt <= ctx.now, CandidateExpired)
            + If(c.target != "" && c.target !in ctx.targets, WrongTarget)
            + If(c.topic != "" && c.topic !in ctx.topics, WrongTopic)
            + If((c.kind == CAPABILITY || c.kind == ACCEPT_TASK) && !ctx.capabilityAllowed, CapabilityNotAllowed)
  {
    assert Told(c, ctx, 5) == Told(c, ctx, 4) + If(c.expiresAt <= ctx.now, CandidateExpired);
    assert Told(c, ctx, 6) == Told(c, ctx, 5) + If(c.target != "" && c.target !in ctx.targets, WrongTarget);
    assert Told(c, ctx, 7) == Told(c, ctx, 6) + If(c.topic != "" && c.topic !in ctx.topics, WrongTopic);
  }

  lemma HardReasonsAreTold(c: Candidate, ctx: Context)
    ensures HardReasons(c, ctx) == Told(c, ctx, 8)
  {
    ToldFour(c, ctx);
    ToldRest(c, ctx);
  }

  /** A candidate is told exactly the gates that are closed to it, each once and in order, and passes if there is none. */
  lemma GatesMean(c: Candidate, ctx: Context)
    ensures forall r :: r in HardReasons(c, ctx) <==> Blocks(r, c, ctx)
    ensures ListedUnder(HardReasons(c, ctx), 8)
    ensures Passes(c, ctx) <==> forall r :: !Blocks(r, c, ctx)
  {
    HardReasonsAreTold(c, ctx);
    ToldOf(c, ctx, 8);
    assert forall r :: Blocks(r, c, ctx) ==> Position(r) < 8;
    NoneOrSome(HardReasons(c, ctx));
  }

  lemma NoneOrSome(reasons: seq<Reason>)
    ensures reasons == [] <==> forall r :: r !in reasons
  {
    if reasons != [] {
      assert reasons[0] in reasons;
    }
  }

  /** Nine values raise the utility by what they are worth, five costs lower it by what they cost. */
  lemma UtilityMeans(c: Candidate, d: real)
    ensures c.(obligation := c.obligation + d).Utility() == c.Utility() + d && c.(relevance := c.relevance + d).Utility() == c.Utility() + d
    ensures c.(relationalValue := c.relationalValue + d).Utility() == c.Utility() + d
    ensures c.(continuityValue := c.continuityValue + d).Utility() == c.Utility() + d
    ensures c.(novelty := c.novelty + d).Utility() == c.Utility() + d && c.(urgency := c.urgency + d).Utility() == c.Utility() + d
    ensures c.(personaFit := c.personaFit + d).Utility() == c.Utility() + d && c.(stateFit := c.stateFit + d).Utility() == c.Utility() + d
    ensures c.(informationGain := c.informationGain + d).Utility() == c.Utility() + d
    ensures c.(disruptionCost := c.disruptionCost + d).Utility() == c.Utility() - d
    ensures c.(uncertaintyCost := c.uncertaintyCost + d).Utility() == c.Utility() - d
    ensures c.(repetitionCost := c.repetitionCost + d).Utility() == c.Utility() - d
    ensures c.(resourceCost := c.resourceCost + d).Utility() == c.Utility() - d && c.(risk := c.risk + d).Utility() == c.Utility() - d
  {
  }

  lemma {:induction false} GateReasonsHas(cs: Candidates, ctx: Context, r: Reason)
    ensures r in GateReasons(cs, ctx) <==> exists c :: c in cs && r in HardReasons(c, ctx)
  {
    if cs != [] {
      var front, last := cs[..|cs| - 1], cs[|cs| - 1];
      assert cs == front + [last];
      GateReasonsHas(front, ctx, r);
      ExtendedHas(GateReasons(front, ctx), HardReasons(last, ctx), r);
    }
  }

  lemma {:induction false} ExtendedHas(target: seq<Reason>, values: seq<Reason>, r: Reason)
    ensures r in Extended(target, values) <==> r in target || r in values
    decreases |values|
  {
    if values != [] {
      assert values == [values[0]] + values[1..];
      ExtendedHas(if values[0] in target then target else target + [values[0]], values[1..], r);
    }
  }

  /** A forced observation rejects everything but observations, whatever the gates. */
  lemma ForcedMeans(cs: Candidates, ctx: Context, x: Rejected)
    requires ctx.forceObserve
    ensures var d := Decided(cs, ctx);
            && d.outcome == OBSERVE_ONLY && d.selected == [] && d.reasons == [ForcedObserve] && d.reconsiderAt.None?
            && (x in d.rejected <==> exists c :: c in cs && !c.kind.OBSERVE? && x == Rejected(c.id, [ForcedObserve]))
  {
    RefusedHas(cs, ctx, x);
  }

  /** Without it all are heard: whoever fails a gate is rejected with all its reasons in any outcome. */
  lemma GateRejectedStay(cs: Candidates, ctx: Context, x: Rejected)
    requires !ctx.forceObserve
    ensures (exists c :: c in cs && !Passes(c, ctx) && x == Rejected(c.id, HardReasons(c, ctx))) ==> x in Decided(cs, ctx).rejected
    ensures Decided(cs, ctx).outcome in {DEFER, OBSERVE_ONLY} && x in Decided(cs, ctx).rejected ==>
              exists c :: c in cs && !Passes(c, ctx) && x == Rejected(c.id, HardReasons(c, ctx))
  {
    GateRejectedHas(cs, ctx, x);
  }

  /** Only a rate limit that is still in force defers, and exactly until it ends. */
  lemma DeferMeans(cs: Candidates, ctx: Context)
    requires Decided(cs, ctx).outcome == DEFER
    ensures var d := Decided(cs, ctx);
            && d.reasons == [RateLimited] && d.selected == [] && d.reconsiderAt == ctx.rateLimitedUntil
            && ctx.rateLimitedUntil.Some? && ctx.rateLimitedUntil.value > ctx.now
  {
  }

  /** Silence although some candidate passes: none that may act is worth the minimum, and each of them is told so. */
  lemma BelowMeans(cs: Candidates, ctx: Context, x: Rejected)
    requires Decided(cs, ctx).outcome == SILENCE && Eligible(cs, ctx) != []
    ensures Decided(cs, ctx).reasons == [UtilityBelowThreshold]
    ensures x in Decided(cs, ctx).rejected <==>
              || (exists c :: c in cs && !Passes(c, ctx) && x == Rejected(c.id, HardReasons(c, ctx)))
              || (exists c :: c in cs && Selectable(c, ctx) && x == Rejected(c.id, [UtilityBelowThreshold]))
  {
    BelowIs(cs, ctx);
    BelowHas(cs, ctx, x);
  }

  lemma BelowIs(cs: Candidates, ctx: Context)
    requires Decided(cs, ctx).outcome == SILENCE && Eligible(cs, ctx) != []
    ensures Decided(cs, ctx).reasons == [UtilityBelowThreshold]
    ensures Decided(cs, ctx).rejected == GateRejected(cs, ctx) + RejectedAll(Contenders(cs, ctx), UtilityBelowThreshold)
  {
  }

  lemma BelowHas(cs: Candidates, ctx: Context, x: Rejected)
    ensures x in GateRejected(cs, ctx) + RejectedAll(Contenders(cs, ctx), UtilityBelowThreshold) <==>
              || (exists c :: c in cs && !Passes(c, ctx) && x == Rejected(c.id, HardReasons(c, ctx)))
              || (exists c :: c in cs && Selectable(c, ctx) && x == Rejected(c.id, [UtilityBelowThreshold]))
  {
    GateRejectedHas(cs, ctx, x);
    RefusedHas(cs, ctx, x);
  }

  /** Silence because no candidate passes: the reasons are those of all of them together. */
  lemma GatedMeans(cs: Candidates, ctx: Context, x: Rejected, r: Reason)
    requires !ctx.forceObserve && forall c :: c in cs ==> !Passes(c, ctx)
    ensures Decided(cs, ctx).outcome == SILENCE
    ensures x in Decided(cs, ctx).rejected <==> exists c :: c in cs && !Passes(c, ctx) && x == Rejected(c.id, HardReasons(c, ctx))
    ensures if cs == [] then Decided(cs, ctx).reasons == [NoEligibleIntention]
            else r in Decided(cs, ctx).reasons <==> exists c :: c in cs && Blocks(r, c, ctx)
  {
    SomeEligible(cs, ctx);
    GateRejectedHas(cs, ctx, x);
    GateReasonsMean(cs, ctx, r);
  }

  lemma SomeEligible(cs: Candidates, ctx: Context)
    ensures Eligible(cs, ctx) != [] <==> exists c :: c in cs && Passes(c, ctx)
  {
    ContendersOf(cs, ctx);
    if Eligible(cs, ctx) != [] {
      assert Eligible(cs, ctx)[0] in Eligible(cs, ctx);
    }
  }

  lemma RefusedHas(cs: Candidates, ctx: Context, x: Rejected)
    ensures x in RejectedAll(Acting(cs), ForcedObserve) <==> exists c :: c in cs && !c.kind.OBSERVE? && x == Rejected(c.id, [ForcedObserve])
    ensures x in RejectedAll(Contenders(cs, ctx), UtilityBelowThreshold) <==>
              exists c :: c in cs && Selectable(c, ctx) && x == Rejected(c.id, [UtilityBelowThreshold])
  {
    RejectedAllHas(Acting(cs), ForcedObserve, x);
    RejectedAllHas(Contenders(cs, ctx), UtilityBelowThreshold, x);
    ContendersOf(cs, ctx);
    forall c ensures c in Acting(cs) <==> c in cs && c.kind != OBSERVE {
      ActingHas(cs, c);
    }
  }

  lemma RejectedAllHas(cs: Candidates, reason: Reason, x: Rejected)
    ensures x in RejectedAll(cs, reason) <==> exists c :: c in cs && x == Rejected(c.id, [reason])
  {
    if c :| c in cs && x == Rejected(c.id, [reason]) {
      var i :| 0 <= i < |cs| && cs[i] == c;
      assert RejectedAll(cs, reason)[i] == x;
    }
  }

  lemma GateReasonsMean(cs: Candidates, ctx: Context, r: Reason)
    ensures r in GateReasons(cs, ctx) <==> exists c :: c in cs && Blocks(r, c, ctx)
    ensures (cs != [] && forall c :: c in cs ==> !Passes(c, ctx)) ==> GateReasons(cs, ctx) != []
    ensures cs == [] ==> GateReasons(cs, ctx) == []
  {
    GateReasonsHas(cs, ctx, r);
    forall c | c in cs ensures r in HardReasons(c, ctx) <==> Blocks(r, c, ctx) {
      GatesMean(c, ctx);
    }
    if cs != [] {
      var c := cs[0];
      assert c in cs;
      if HardReasons(c, ctx) != [] {
        assert HardReasons(c, ctx)[0] in HardReasons(c, ctx);
        GateReasonsHas(cs, ctx, HardReasons(c, ctx)[0]);
      }
    }
  }

  // ---------------------------------------------------------------- the loops

  method ExtendUnique(target: seq<Reason>, values: seq<Reason>) returns (r: seq<Reason>)
    ensures r == Extended(target, values)
    ensures forall v :: v in r <==> v in target || v in values
  {
    r := target;
    for i := 0 to |values|
      invariant Extended(r, values[i..]) == Extended(target, values)
      invariant forall v :: v in r <==> v in target || v in values[..i]
    {
      assert values[i..][1..] == values[i + 1..];
      if values[i] !in r {
        r := r + [values[i]];
      }
    }
  }

  /** What the loop collects when it goes on to the next candidate. */
  lemma CollectedNext(cs: Candidates, i: nat, ctx: Context)
    requires i < |cs|
    ensures Eligible(cs[..i + 1], ctx) == Eligible(cs[..i], ctx) + if Passes(cs[i], ctx) then [cs[i]] else []
    ensures GateRejected(cs[..i + 1], ctx)
            == GateRejected(cs[..i], ctx) + if Passes(cs[i], ctx) then [] else [Rejected(cs[i].id, HardReasons(cs[i], ctx))]
    ensures GateReasons(cs[..i + 1], ctx) == Extended(GateReasons(cs[..i], ctx), HardReasons(cs[i], ctx))
  {
    assert cs[..i + 1][..i] == cs[..i];
  }

  method Decide(candidates: Candidates, ctx: Context) returns (d: Decision)
    ensures d == Decided(candidates, ctx)
    ensures d.outcome == OutcomeOf(AsSet(candidates), ctx)
    ensures d.outcome == ACT <==> d.selected != []
    ensures d.outcome == DEFER <==> d.reconsiderAt.Some?
    ensures d.reconsiderAt.Some? ==> d.reconsiderAt == ctx.rateLimitedUntil && d.reconsiderAt.value > ctx.now
  {
    DecisionMeans(candidates, ctx);
    if ctx.forceObserve {
      return Decision(OBSERVE_ONLY, [], RejectedAll(Acting(candidates), ForcedObserve), [ForcedObserve], None);
    }
    var rejected: seq<Rejected> := [];
    var eligible: Candidates := [];
    var reasons: seq<Reason> := [];
    for i := 0 to |candidates|
      invariant rejected == GateRejected(candidates[..i], ctx)
      invariant eligible == Eligible(candidates[..i], ctx)
      invariant reasons == GateReasons(candidates[..i], ctx)
    {
      CollectedNext(candidates, i, ctx);
      var hard := HardReasons(candidates[i], ctx);
      if hard != [] {
        rejected := rejected + [Rejected(candidates[i].id, hard)];
        reasons := ExtendUnique(reasons, hard);
      } else {
        eligible := eligible + [candidates[i]];
      }
    }
    assert candidates[..|candidates|] == candidates;
    if eligible == [] {
      return Decision(SILENCE, [], rejected, if reasons == [] then [NoEligibleIntention] else reasons, None);
    }
    var ranked := Ranked(Acting(eligible));
    if ranked == [] {
      return Decision(OBSERVE_ONLY, [], rejected, [ObserveIntention], None);
    }
    if ctx.Limited() {
      return Decision(DEFER, [], rejected, [RateLimited], ctx.rateLimitedUntil);
    }
    var top := ranked[0];
    if top.Utility() < ctx.minimumUtility {
      return Decision(SILENCE, [], rejected + RejectedAll(ranked, UtilityBelowThreshold), [UtilityBelowThreshold], None);
    }
    var losers := LosersOf(ranked);
    d := Decision(ACT, [top.id], rejected + losers, [SelectedBySocialUtility], None);
  }

  method LosersOf(ranked: Candidates) returns (losers: seq<Rejected>)
    requires ranked != []
    ensures losers == RejectedFor(ranked[1..], WhyNot(ranked[0]))
  {
    losers := [];
    for i := 1 to |ranked|
      invariant |losers| == i - 1
      invariant forall j :: 1 <= j < i ==> losers[j - 1] == Rejected(ranked[j].id, [WhyNot(ranked[0])(ranked[j])])
    {
      var why := if ranked[i].target != ranked[0].target then DifferentTarget
                 else if ranked[i].topic != ranked[0].topic then DifferentTopic else LowerUtility;
      losers := losers + [Rejected(ranked[i].id, [why])];
    }
    forall j | 0 <= j < |losers| ensures losers[j] == RejectedFor(ranked[1..], WhyNot(ranked[0]))[j] {
      assert ranked[1..][j] == ranked[j + 1];
      assert losers[j + 1 - 1] == Rejected(ranked[j + 1].id, [WhyNot(ranked[0])(ranked[j + 1])]);
    }
  }
}
