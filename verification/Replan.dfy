/** Planning again: what may change under a plan without changing what it decides. */
module Replan {
  import opened Bytes
  import opened Ordering
  import opened Model
  import opened DocumentCodec
  import opened LineageCodec
  import opened StoreState
  import opened Drift
  import opened Explain
  import opened Planner
  import opened PlanTheorems
  import opened Engine

  // ---------------------------------------------------------------- dispatch against newer tables

  /** The tables hold only documents the store could encode. */
  ghost predicate Encodable(t: Tables, scope: Id) {
    && (t.policy.Some? ==> Fits(PutPolicy(t.policy.value, [])))
    && (scope in t.intents ==> Fits(PutIntent(t.intents[scope], [])))
    && (forall o :: o in Stream(t, scope) ==> Fits(PutObservation(o, [])))
  }

  /** The digest tells apart the documents the two states hold for this scope. */
  ghost predicate Distinguished(t: Tables, u: Tables, scope: Id) {
    && (t.policy.Some? && u.policy.Some? ==>
          NoCollision(PolicyDigestInput(t.policy.value), PolicyDigestInput(u.policy.value)))
    && (scope in t.intents && scope in u.intents ==>
          NoCollision(IntentDigestInput(t.intents[scope]), IntentDigestInput(u.intents[scope])))
    && (forall a, b :: a in Stream(t, scope) && b in Stream(u, scope)
                       ==> NoCollision(ObservationDigestInput(a), ObservationDigestInput(b)))
  }

  lemma SelectedIsCandidate(s: seq<Observation>)
    ensures SelectObservation(s).selected.Some? ==> SelectObservation(s).selected.value in s
  {
    if s != [] {
      assert s[0] in s && forall d :: d in s[1..] ==> d in s;
    }
  }

  lemma StreamValid(limits: Limits, t: Tables, scope: Id, o: Observation)
    requires ValidTables(limits, t) && o in Stream(t, scope)
    ensures ValidObservation(limits, o) && o.scope == scope
  {
    hide ValidObservation, ValidIntents, ValidAttempts, ValidOutcomes, ValidFences, ValidPolicy, ValidGenerationTable;
    assert ValidStream(limits, scope, t.observations[scope]);
  }

  /** What a plan was built from. */
  lemma PlannedFrom(limits: Limits, t: Tables, live: Live, request: Request, plan: Plan)
    requires PlanSpec(limits, t, live, request) == Ok(plan)
    ensures t.policy.Some? && plan.scope == request.scope && plan.scope != [] && plan.live == live
    ensures plan.policyDigest == PolicyDigest(PolicyFor(t, request))
    ensures plan.evidence == Drift.EvidenceOf(InputFor(t, live, PolicyFor(t, request), request.scope, request.nowMs))
    ensures plan.evidence.intent == CurrentIntent(t, plan.scope)
    ensures plan.evidence.observation == SelectObservation(Stream(t, plan.scope)).selected
  {
    hide ClassifySpec, Decisions, VerdictOf, ScopeStep, SelectObservation, SelectIntent, EvaluateFreshness, InputFor,
         Stream, PolicyDigest, Decidable;
    DecidableReport(InputFor(t, live, PolicyFor(t, request), request.scope, request.nowMs));
    EngineEvidence(t, live, PolicyFor(t, request), request.scope, request.nowMs);
  }

  /** The tables hold the very intent the plan was built on. A plan built without one names generation zero and an
      all-zero digest, and nothing but a stored intent with exactly those would match it. */
  predicate SameIntent(u: Tables, plan: Plan) {
    && plan.scope in u.intents
    && if plan.evidence.intent.Some? then u.intents[plan.scope] == plan.evidence.intent.value
       else u.intents[plan.scope].generation == 0 && u.intents[plan.scope].digest == BLANK_DIGEST
  }

  /** The observation selected now is the very one the plan was built on. */
  predicate SameObservation(u: Tables, plan: Plan) {
    plan.evidence.observation.Some? && SelectObservation(Stream(u, plan.scope)).selected == plan.evidence.observation
  }

  /** The digest tells the policy a plan was built under apart from the one in force later. */
  ghost predicate PolicyDistinguished(limits: Limits, t: Tables, u: Tables, request: Request)
    requires t.policy.Some?
  {
    && (request.policy.Some? ==> ValidPolicy(limits, request.policy.value) && Fits(PutPolicy(request.policy.value, [])))
    && (u.policy.Some? ==> NoCollision(PolicyDigestInput(PolicyFor(t, request)), PolicyDigestInput(u.policy.value)))
  }

  lemma PoliciesMatch(limits: Limits, t: Tables, u: Tables, request: Request)
    requires ValidTables(limits, t) && ValidTables(limits, u) && t.policy.Some? && u.policy.Some?
    requires Fits(PutPolicy(t.policy.value, [])) && Fits(PutPolicy(u.policy.value, []))
             && PolicyDistinguished(limits, t, u, request)
    ensures PolicyDigest(PolicyFor(t, request)) == PolicyDigest(u.policy.value)
       <==> PolicyFor(t, request) == u.policy.value
  {
    hide PolicyDigest, PolicyDigestInput, PutPolicy, ValidPolicy, Fits, NoCollision, ValidIntents, ValidObservations,
         ValidAttempts, ValidOutcomes, ValidFences, ValidGenerationTable;
    if PolicyDigest(PolicyFor(t, request)) == PolicyDigest(u.policy.value) {
      PolicyDigestBinds(limits, PolicyFor(t, request), u.policy.value);
    }
  }

  lemma IntentsMatch(limits: Limits, t: Tables, u: Tables, scope: Id)
    requires ValidTables(limits, t) && ValidTables(limits, u) && scope in t.intents && scope in u.intents
    requires Fits(PutIntent(t.intents[scope], [])) && Fits(PutIntent(u.intents[scope], []))
    requires NoCollision(IntentDigestInput(t.intents[scope]), IntentDigestInput(u.intents[scope]))
    ensures t.intents[scope].digest == u.intents[scope].digest <==> t.intents[scope] == u.intents[scope]
  {
    hide IntentDigestInput, PutIntent, ValidIntent, Fits, NoCollision, ValidPolicy, ValidObservations, ValidAttempts,
         ValidOutcomes, ValidFences, ValidGenerationTable;
    if t.intents[scope].digest == u.intents[scope].digest
    { IntentDigestBinds(limits, t.intents[scope], u.intents[scope]); }
  }

  lemma ObservationsMatch(limits: Limits, t: Tables, u: Tables, scope: Id, a: Observation, b: Observation)
    requires ValidTables(limits, t) && ValidTables(limits, u) && a in Stream(t, scope) && b in Stream(u, scope)
    requires Fits(PutObservation(a, [])) && Fits(PutObservation(b, []))
             && NoCollision(ObservationDigestInput(a), ObservationDigestInput(b))
    ensures a.digest == b.digest <==> a == b
    ensures b.observation != []
  {
    hide ValidTables, ObservationDigestInput, PutObservation, ValidSubjects, Fits, NoCollision, Stream,
         ObservationDigest;
    StreamValid(limits, t, scope, a);
    StreamValid(limits, u, scope, b);
    if a.digest == b.digest { ObservationDigestBinds(limits, a, b); }
  }

  /** A plan is accepted exactly when the incarnation, the policy, the intent and the selected observation in force are
      the very ones it was built on, unless the digest collides on one of the pairs of documents named here. */
  lemma AcceptedExactly(limits: Limits, t: Tables, u: Tables, planner: Live, live: Live, request: Request, plan: Plan)
    requires ValidTables(limits, t) && ValidTables(limits, u) && Encodable(t, plan.scope) && Encodable(u, plan.scope)
    requires PlanSpec(limits, t, planner, request) == Ok(plan) && t.policy.Some?
    requires Distinguished(t, u, plan.scope) && PolicyDistinguished(limits, t, u, request)
    ensures DispatchRefusal(u, live, plan).Ok?
       <==> && planner == live && u.policy == Some(PolicyFor(t, request))
            && SameIntent(u, plan) && SameObservation(u, plan)
  {
    hide ValidTables, PlanSpec, SelectObservation, PolicyDigest, Stream, Fits, NoCollision, PutPolicy, PutIntent,
         PutObservation, PolicyDigestInput, IntentDigestInput, ObservationDigestInput, PolicyDistinguished, PolicyFor;
    var scope := plan.scope;
    PlannedFrom(limits, t, planner, request, plan);
    if u.policy.Some? { PoliciesMatch(limits, t, u, request); }
    if scope in t.intents && scope in u.intents { IntentsMatch(limits, t, u, scope); }
    SelectedIsCandidate(Stream(t, scope));
    SelectedIsCandidate(Stream(u, scope));
    var a, b := plan.evidence.observation, SelectObservation(Stream(u, scope)).selected;
    if b.Some? {
      if a.Some? { ObservationsMatch(limits, t, u, scope, a.value, b.value); }
      else { NamedObservation(limits, u, scope, b.value); }
    }
  }

  lemma NamedObservation(limits: Limits, u: Tables, scope: Id, b: Observation)
    requires ValidTables(limits, u) && b in Stream(u, scope)
    ensures b.observation != []
  {
    hide ValidTables, ValidSubjects, Stream, ObservationDigest;
    StreamValid(limits, u, scope, b);
  }

  lemma DecisionIgnoresFences(c: Context, fences: map<Id, Fence>, r: DriftRecord)
    requires !FenceHolds(c.fences, r.scope, r.subject, c.live.epoch)
             && !FenceHolds(fences, r.scope, r.subject, c.live.epoch)
    ensures DecisionFor(c, r) == DecisionFor(c.(fences := fences), r)
  {
    hide AuthorityFor, FailedComponents, IdempotencyKey, AuthorityReason, EligibilityOf, FenceHolds;
  }

  /** While the evidence is undisputed and fresh, the report depends on the selected documents alone. */
  lemma ReportDependsOnSelected(x: Input, y: Input)
    requires ClassifySpec(x).Ok? && ClassifySpec(y).Ok? && Decidable(x) && Decidable(y)
    requires x.scope == y.scope && x.policy == y.policy
    requires SelectIntent(x.intents).selected == SelectIntent(y.intents).selected
    requires SelectObservation(x.observations).selected == SelectObservation(y.observations).selected
    ensures ClassifySpec(x).value.records == ClassifySpec(y).value.records
    ensures ClassifySpec(x).value.evidence == ClassifySpec(y).value.evidence
  {
    hide ClassifySpec, SubjectDrifts, UnionSubjects, SelectIntent, SelectObservation, EvaluateFreshness, Named;
    DecidableReport(x);
    DecidableReport(y);
  }

  lemma ValidIsOk(limits: Limits, t: Tables, live: Live, policy: Policy, scope: Id, nowMs: int)
    requires ValidTables(limits, t) && scope != []
    ensures ClassifySpec(InputFor(t, live, policy, scope, nowMs)).Ok?
  {
    hide ClassifySpec, ValidIntent, ValidObservation, ValidAttempts, ValidOutcomes, ValidFences, ValidPolicy,
         ValidGenerationTable;
    forall o | o in Stream(t, scope) ensures o.scope == scope { StreamValid(limits, t, scope, o); }
    InScope(InputFor(t, live, policy, scope, nowMs));
  }

  /** The plan's observation is still fresh at a later time. */
  predicate FreshAt(t: Tables, plan: Plan, nowMs: int) {
    && t.policy.Some? && plan.evidence.observation.Some?
    && EvaluateFreshness(plan.evidence.observation.value, t.policy.value, plan.live.epoch, nowMs) == Fresh
  }

  /** A new plan came out, and decides subject `n` as the old one did. */
  predicate Reached(again: Result<Plan>, plan: Plan, n: nat) {
    && again.Ok? && |again.value.decisions| == |plan.decisions|
    && n < |plan.decisions| && again.value.decisions[n] == plan.decisions[n]
  }

  /** Only the stored policy acts: a plan under any other policy holds no action. */
  lemma ActsUnderStoredPolicy(limits: Limits, t: Tables, live: Live, request: Request, plan: Plan, n: nat)
    requires ValidTables(limits, t) && t.policy.Some? && Fits(PutPolicy(t.policy.value, []))
             && PolicyDistinguished(limits, t, t, request)
    requires PlanSpec(limits, t, live, request) == Ok(plan)
    requires n < |plan.decisions| && plan.decisions[n].disposition == Actionable
    ensures PolicyFor(t, request) == t.policy.value
  {
    hide PlanSpec, AuthorityFor, FenceHolds, PolicyDigest, Fits, PutPolicy, InputFor, Decidable, ValidTables,
         PolicyDistinguished, PolicyFor;
    ActionableIsAuthorised(limits, t, live, request, n);
    PlannedFrom(limits, t, live, request, plan);
    PoliciesMatch(limits, t, t, request);
  }

  /** Two states of one run that a plan may span: what the store can hold, and digests that tell it apart. */
  ghost predicate Spans(limits: Limits, t: Tables, u: Tables, request: Request) {
    && ValidTables(limits, t) && ValidTables(limits, u) && Encodable(t, request.scope) && Encodable(u, request.scope)
    && Distinguished(t, u, request.scope)
    && (t.policy.Some? ==> PolicyDistinguished(limits, t, t, request) && PolicyDistinguished(limits, t, u, request))
  }

  /** A plan with an action in it that is accepted is bound to exactly the documents now in force. */
  lemma SameEvidence(limits: Limits, t: Tables, u: Tables, live: Live, request: Request, plan: Plan, n: nat)
    requires Spans(limits, t, u, request) && PlanSpec(limits, t, live, request) == Ok(plan)
    requires n < |plan.decisions| && plan.decisions[n].disposition == Actionable && DispatchRefusal(u, live, plan).Ok?
    ensures t.policy.Some? && u.policy == t.policy && PolicyFor(t, request) == t.policy.value
    ensures CurrentIntent(u, plan.scope) == plan.evidence.intent && plan.evidence.intent.Some?
    ensures SelectObservation(Stream(u, plan.scope)).selected == plan.evidence.observation
            && plan.evidence.observation.Some?
  {
    hide ValidTables, PlanSpec, SelectObservation, PolicyDigest, Stream, Fits, PutPolicy, PutIntent, PutObservation,
         Distinguished, PolicyDistinguished, AuthorityFor, FenceHolds, DispatchRefusal, InputFor, Decidable, PolicyFor;
    PlannedFrom(limits, t, live, request, plan);
    ActionableIsAuthorised(limits, t, live, request, n);
    ActsUnderStoredPolicy(limits, t, live, request, plan, n);
    AcceptedExactly(limits, t, u, live, live, request, plan);
  }

  /** A plan that passes the dispatch checks decides what a plan built now would decide: every action it holds whose
      subject is not fenced now is, field for field, the decision of a new plan, as long as the evidence is fresh. */
  lemma DispatchAgreesWithReplan(limits: Limits, t: Tables, u: Tables, live: Live, request: Request, plan: Plan,
                                 later: int, n: nat)
    requires Spans(limits, t, u, request) && PlanSpec(limits, t, live, request) == Ok(plan)
    requires n < |plan.decisions| && plan.decisions[n].disposition == Actionable
    requires DispatchRefusal(u, live, plan).Ok? && FreshAt(u, plan, later)
    requires !FenceHolds(u.fences, plan.decisions[n].scope, plan.decisions[n].subject, live.epoch)
    ensures Reached(PlanSpec(limits, u, live, request.(nowMs := later)), plan, n)
  {
    hide ClassifySpec, Decisions, VerdictOf, ScopeStep, FirstSteps, DecisionFor, AuthorityFor, FenceHolds, PolicyDigest,
         Decidable, SelectIntent, SelectObservation, EvaluateFreshness, ValidTables, Encodable, Distinguished,
         PolicyDistinguished, Stream, InputFor, DispatchRefusal;
    var scope, policy := request.scope, t.policy.value;
    var x, y := InputFor(t, live, policy, scope, request.nowMs), InputFor(u, live, policy, scope, later);
    SameEvidence(limits, t, u, live, request, plan, n);
    ActionableIsAuthorised(limits, t, live, request, n);
    EngineEvidence(t, live, policy, scope, request.nowMs);
    DecidableReport(x);
    EngineEvidence(u, live, policy, scope, later);
    ValidIsOk(limits, u, live, policy, scope, later);
    EngineSelections(t, live, policy, scope, request.nowMs);
    EngineSelections(u, live, policy, scope, later);
    ReportDependsOnSelected(x, y);
    var report := ClassifySpec(x).value;
    var c := ContextFor(limits, t, live, policy, scope, report.evidence);
    var records := Bounded(report.records, limits.maxPlanActions);
    DecisionAt(c, records, n);
    DecisionAt(c.(fences := u.fences), records, n);
    DecisionSubject(c, records[n]);
    DecisionIgnoresFences(c, u.fences, records[n]);
  }

  /** At the plan's own clock reading its evidence is fresh, whatever has happened since. */
  lemma FreshAtOwnReading(limits: Limits, t: Tables, u: Tables, live: Live, request: Request, plan: Plan, n: nat)
    requires Spans(limits, t, u, request) && PlanSpec(limits, t, live, request) == Ok(plan)
    requires n < |plan.decisions| && plan.decisions[n].disposition == Actionable && DispatchRefusal(u, live, plan).Ok?
    ensures FreshAt(u, plan, request.nowMs)
  {
    hide PlanSpec, ValidTables, Encodable, Distinguished, PolicyDistinguished, SelectObservation, SelectIntent,
         EvaluateFreshness, Stream, InputFor, Decidable, AuthorityFor, FenceHolds, PolicyDigest, DispatchRefusal;
    SameEvidence(limits, t, u, live, request, plan, n);
    PlannedFrom(limits, t, live, request, plan);
    ActionableIsAuthorised(limits, t, live, request, n);
    EngineEvidence(t, live, t.policy.value, request.scope, request.nowMs);
  }

  lemma EngineSelections(t: Tables, live: Live, policy: Policy, scope: Id, nowMs: int)
    ensures var input := InputFor(t, live, policy, scope, nowMs);
            && input.scope == scope && input.policy == policy
            && SelectIntent(input.intents).selected == CurrentIntent(t, scope)
            && SelectObservation(input.observations).selected == SelectObservation(Stream(t, scope)).selected
  {
    hide SelectObservation;
    if scope in t.intents { OneIntent(t.intents[scope]); }
  }

  /** Once the evidence has gone stale a new plan acts on nothing. */
  lemma StaleReplanActsOnNothing(limits: Limits, u: Tables, live: Live, request: Request, again: Plan, n: nat)
    requires PlanSpec(limits, u, live, request) == Ok(again) && u.policy.Some? && n < |again.decisions|
    requires var selected := SelectObservation(Stream(u, request.scope)).selected;
             && selected.Some?
             && EvaluateFreshness(selected.value, PolicyFor(u, request), live.epoch, request.nowMs) != Fresh
    ensures again.decisions[n].disposition != Actionable
  {
    hide PlanSpec, SelectObservation, EvaluateFreshness, Authorised, InputFor, Decidable;
    if again.decisions[n].disposition == Actionable {
      ActionableIsAuthorised(limits, u, live, request, n);
      EngineEvidence(u, live, PolicyFor(u, request), request.scope, request.nowMs);
    }
  }

  /** A new plan came out, and acts on subject `n`. */
  predicate ActsOn(again: Result<Plan>, n: nat) {
    again.Ok? && n < |again.value.decisions| && again.value.decisions[n].disposition == Actionable
  }

  /** The time of dispatch is not checked: of an accepted plan's actions whose subject is not fenced, a plan built at
      `later` takes the same one exactly when the evidence is still fresh then, while the old plan's is issued
      anyway. */
  lemma ReplanActsExactly(limits: Limits, t: Tables, u: Tables, live: Live, request: Request, plan: Plan, later: int,
                          n: nat)
    requires Spans(limits, t, u, request) && PlanSpec(limits, t, live, request) == Ok(plan)
    requires n < |plan.decisions| && plan.decisions[n].disposition == Actionable && DispatchRefusal(u, live, plan).Ok?
    requires !FenceHolds(u.fences, plan.decisions[n].scope, plan.decisions[n].subject, live.epoch)
    ensures ActsOn(PlanSpec(limits, u, live, request.(nowMs := later)), n) <==> FreshAt(u, plan, later)
  {
    hide PlanSpec, ValidTables, Encodable, Distinguished, PolicyDistinguished, SelectObservation, EvaluateFreshness,
         Stream, FenceHolds, DispatchRefusal;
    if FreshAt(u, plan, later) {
      DispatchAgreesWithReplan(limits, t, u, live, request, plan, later, n);
    } else {
      SameEvidence(limits, t, u, live, request, plan, n);
      PlannedFrom(limits, t, live, request, plan);
      var again := PlanSpec(limits, u, live, request.(nowMs := later));
      if again.Ok? && n < |again.value.decisions| {
        assert PolicyFor(u, request.(nowMs := later)) == u.policy.value;
        StaleReplanActsOnNothing(limits, u, live, request.(nowMs := later), again.value, n);
      }
    }
  }
}
