/** What a plan means: when it claims convergence, what it may act on, and what it does not depend on. */
module PlanTheorems {
  import opened Bytes
  import opened Ordering
  import opened Model
  import opened DocumentCodec
  import opened LineageCodec
  import opened StoreState
  import opened Drift
  import opened Planner

  // ---------------------------------------------------------------- one attribute, one subject

  /** Both sides hold the attribute, both values are supported, and they are the same value. */
  predicate Agrees(p: Pair, k: Id) {
    && k in p.intended.attributes && k in p.observed.attributes
    && IsValidValue(p.intended.attributes[k]) && p.intended.attributes[k] == p.observed.attributes[k]
  }

  /** Every attribute either side holds is unmanaged, or the two sides agree on it. */
  ghost predicate Settled(policy: Policy, p: Pair) {
    forall k :: (k in p.intended.attributes || k in p.observed.attributes) && !IsUnmanaged(policy, k) ==> Agrees(p, k)
  }

  /** A key disagrees exactly when it leaves a gap, an unsupported value, or a difference that counts. */
  lemma KeyAgrees(policy: Policy, p: Pair, k: Id)
    requires k in p.intended.attributes || k in p.observed.attributes
    ensures (IsUnmanaged(policy, k) || Agrees(p, k))
       <==> !GapAt(policy, p, k) && !UnsupportedAt(policy, p, k) && !HasActionable(DeltaAt(policy, p, k))
  {
    var d := DeltaAt(policy, p, k);
    assert d == [] || d == [d[0]];
    assert HasActionable(d) <==> d != [] && d[0].kind != Unmanaged;
  }

  lemma {:induction false} DeltasActionable(policy: Policy, p: Pair, keys: seq<Id>)
    ensures HasActionable(DeltasOf(policy, p, keys)) <==> exists k :: k in keys && HasActionable(DeltaAt(policy, p, k))
    decreases |keys|
  {
    if keys != [] {
      var front, k := keys[..|keys| - 1], keys[|keys| - 1];
      DeltasActionable(policy, p, front);
      ActionableOfConcat(DeltasOf(policy, p, front), DeltaAt(policy, p, k));
      assert forall x :: x in keys <==> x in front || x == k;
    }
  }

  lemma ActionableOfConcat(a: seq<Delta>, b: seq<Delta>)
    ensures HasActionable(a + b) <==> HasActionable(a) || HasActionable(b)
  {
    var s := a + b;
    if HasActionable(a) { var i :| 0 <= i < |a| && a[i].kind != Unmanaged; assert s[i].kind != Unmanaged; }
    if HasActionable(b) { var i :| 0 <= i < |b| && b[i].kind != Unmanaged; assert s[|a| + i].kind != Unmanaged; }
  }

  /** A subject both documents name is converged exactly when every managed attribute agrees. */
  lemma ConvergedExactly(scope: Id, p: Pair, policy: Policy, evidence: EvidenceClass, subject: Id)
    ensures PairDrift(scope, p, policy, evidence, subject).drift == AlreadyConverged <==> Settled(policy, p)
    ensures var r := PairDrift(scope, p, policy, evidence, subject); r.drift == Mismatched ==> HasActionable(r.deltas)
  {
    hide DeltasOf, DeltaAt, GapAt, UnsupportedAt, Agrees, HasActionable, SortedKeys, MismatchReason;
    var keys := KeysOf(p);
    assert forall k :: k in keys <==> k in Elements(keys);
    assert Elements(keys) == p.intended.attributes.Keys + p.observed.attributes.Keys;
    DeltasActionable(policy, p, keys);
    forall k | k in keys
      ensures (IsUnmanaged(policy, k) || Agrees(p, k))
         <==> !GapAt(policy, p, k) && !UnsupportedAt(policy, p, k) && !HasActionable(DeltaAt(policy, p, k))
    {
      KeyAgrees(policy, p, k);
    }
  }

  /** Both documents name the subject, and it is settled. */
  ghost predicate SubjectSettled(policy: Policy, intent: Intent, o: Observation, s: Id) {
    s in intent.subjects && s in o.subjects && Settled(policy, Pair(intent.subjects[s], o.subjects[s]))
  }

  ghost predicate AllSettled(policy: Policy, intent: Intent, o: Observation) {
    forall s :: s in intent.subjects || s in o.subjects ==> SubjectSettled(policy, intent, o, s)
  }

  lemma SubjectConvergedExactly(scope: Id, intent: Intent, o: Observation, policy: Policy, evidence: EvidenceClass,
                                s: Id)
    requires s in intent.subjects || s in o.subjects
    ensures var r := SubjectDrift(scope, intent, o, policy, evidence, s);
            && (r.drift == AlreadyConverged <==> SubjectSettled(policy, intent, o, s))
            && (r.drift == Mismatched ==> HasActionable(r.deltas))
  {
    hide PairDrift, Settled, SideDeltas, AbsenceAllowed;
    if s in intent.subjects && s in o.subjects {
      ConvergedExactly(scope, Pair(intent.subjects[s], o.subjects[s]), policy, evidence, s);
    }
  }

  // ---------------------------------------------------------------- lists of records and decisions

  lemma {:induction false} DriftAt(scope: Id, intent: Intent, o: Observation, policy: Policy, evidence: EvidenceClass,
                                   subjects: seq<Id>, n: nat)
    requires Named(intent, o, subjects) && n < |subjects|
    ensures var drifts := SubjectDrifts(scope, intent, o, policy, evidence, subjects);
            |drifts| == |subjects| && drifts[n] == SubjectDrift(scope, intent, o, policy, evidence, subjects[n])
    decreases |subjects|
  {
    hide SubjectDrift;
    var front := subjects[..|subjects| - 1];
    if front != [] {
      DriftAt(scope, intent, o, policy, evidence, front, if n < |front| then n else 0);
    }
  }

  lemma {:induction false} DriftsLength(scope: Id, intent: Intent, o: Observation, policy: Policy,
                                        evidence: EvidenceClass, subjects: seq<Id>)
    requires Named(intent, o, subjects)
    ensures |SubjectDrifts(scope, intent, o, policy, evidence, subjects)| == |subjects|
  {
    if subjects != [] { DriftAt(scope, intent, o, policy, evidence, subjects, 0); }
  }

  lemma {:induction false} DecisionAt(c: Context, records: seq<DriftRecord>, n: nat)
    requires n < |records|
    ensures Decisions(c, records)[n] == DecisionFor(c, records[n])
    decreases |records|
  {
    hide DecisionFor;
    if n < |records| - 1 { DecisionAt(c, records[..|records| - 1], n); }
  }

  /** With fresh, undisputed evidence every subject of either document gets exactly one record, in order, and the
      record is the one a lookup of that subject gives. */
  lemma OneRecordPerSubject(input: Input)
    requires ClassifySpec(input).Ok? && Decidable(input)
    ensures var e, records := Drift.EvidenceOf(input), ClassifySpec(input).value.records;
            var subjects := UnionSubjects(e.intent.value, e.observation.value);
            && |records| == |subjects| && Ascending(subjects) && Named(e.intent.value, e.observation.value, subjects)
            && (forall s :: s in e.intent.value.subjects || s in e.observation.value.subjects ==> s in subjects)
            && forall i :: 0 <= i < |records| ==>
                 && records[i].subject == subjects[i]
                 && records[i] == SubjectDrift(input.scope, e.intent.value, e.observation.value, input.policy,
                                               e.evidence, subjects[i])
  {
    hide ClassifySpec, SubjectDrifts, SubjectDrift, SelectIntent, SelectObservation, EvaluateFreshness, SortedKeys;
    var e := Drift.EvidenceOf(input);
    var intent, o := e.intent.value, e.observation.value;
    var subjects := UnionSubjects(intent, o);
    DecidableReport(input);
    UnionSize(intent, o);
    DriftsLength(input.scope, intent, o, input.policy, e.evidence, subjects);
    var records := ClassifySpec(input).value.records;
    forall i | 0 <= i < |records|
      ensures records[i].subject == subjects[i]
      ensures records[i] == SubjectDrift(input.scope, intent, o, input.policy, e.evidence, subjects[i])
    {
      DriftAt(input.scope, intent, o, input.policy, e.evidence, subjects, i);
      DriftScope(input.scope, intent, o, input.policy, e.evidence, subjects[i]);
    }
  }

  /** A gap in coverage never becomes a difference: a subject the observation may not call absent is unknown, and so
      is a subject with a managed attribute one side does not cover. */
  lemma GapIsNeverADifference(scope: Id, intent: Intent, o: Observation, policy: Policy, evidence: EvidenceClass, s: Id)
    requires s in intent.subjects || s in o.subjects
    ensures var r := SubjectDrift(scope, intent, o, policy, evidence, s);
            && (s !in o.subjects && policy.requireCoverageForAbsence && !(o.complete && o.authoritativeAbsence)
                ==> r.drift == UnknownDrift)
            && (s !in intent.subjects && !intent.complete ==> r.drift == UnknownDrift)
            && (s in intent.subjects && s in o.subjects
                && (exists k :: GapIn(policy, Pair(intent.subjects[s], o.subjects[s]), k))
                ==> r.drift == UnknownDrift || r.drift == UnsupportedDrift)
  {
    hide DeltasOf, SideDeltas, GapAt, UnsupportedAt, MismatchReason, HasActionable, SortedKeys;
    if s in intent.subjects && s in o.subjects {
      var p := Pair(intent.subjects[s], o.subjects[s]);
      var keys := KeysOf(p);
      assert forall k :: k in keys <==> k in Elements(keys);
      if k :| GapIn(policy, p, k) { assert k in keys && GapAt(policy, p, k); }
    }
  }

  /** One side holds a managed attribute, and the other neither holds it nor covers all attributes. */
  predicate GapIn(policy: Policy, p: Pair, k: Id) {
    (k in p.intended.attributes || k in p.observed.attributes) && GapAt(policy, p, k)
  }

  lemma SatisfiedExactly(c: Context, r: DriftRecord)
    requires r.drift == Mismatched ==> HasActionable(r.deltas)
    ensures DecisionFor(c, r).disposition == AlreadySatisfied <==> r.drift == AlreadyConverged
  {
    hide IdempotencyKey, AuthorityFor, FailedComponents, FenceHolds, AuthorityReason;
    if r.drift == Mismatched {
      var i :| 0 <= i < |r.deltas| && r.deltas[i].kind != Unmanaged;
      assert HasKind(r.deltas, ObserveOnly) || HasPlainDelta(r.deltas);
    }
  }

  predicate AllSatisfied(decisions: seq<Decision>) {
    forall i :: 0 <= i < |decisions| ==> decisions[i].disposition == AlreadySatisfied
  }

  lemma ProvenExactly(e: Evidence, decisions: seq<Decision>)
    requires e.intent.Some? && e.observation.Some? && e.freshness == Fresh
    ensures VerdictOf(false, e, decisions).0 == ConvergedProven
       <==> AllSatisfied(decisions)
  {
    forall i | 0 <= i < |decisions| ensures HasDisposition(decisions, decisions[i].disposition) {}
  }

  // ---------------------------------------------------------------- the convergence verdict

  /** What "converged" claims about the stored evidence, with no reference to how a plan is built. */
  ghost predicate Converged(limits: Limits, t: Tables, live: Live, request: Request)
    requires t.policy.Some?
  {
    var policy := PolicyFor(t, request);
    var selected := SelectObservation(Stream(t, request.scope)).selected;
    && request.scope in t.intents && selected.Some?
    && EvaluateFreshness(selected.value, policy, live.epoch, request.nowMs) == Fresh
    && |t.intents[request.scope].subjects.Keys + selected.value.subjects.Keys| <= limits.maxPlanActions
    && AllSettled(policy, t.intents[request.scope], selected.value)
  }

  lemma OneIntent(d: Intent)
    ensures SelectIntent([d]) == Selection(Some(d), false, NO_REASON)
  {
    assert Latest([d][0], [d][1..]) == d;
  }

  /** The engine's own candidates: at most one intent, never conflicted, never regressed. */
  lemma EngineEvidence(t: Tables, live: Live, policy: Policy, scope: Id, nowMs: int)
    ensures var input := InputFor(t, live, policy, scope, nowMs);
            var e := Drift.EvidenceOf(input);
            && !SelectIntent(input.intents).conflicted
            && e.intent == CurrentIntent(t, scope)
            && e.observation == SelectObservation(Stream(t, scope)).selected
            && (e.observation.Some? <==> !SelectObservation(Stream(t, scope)).conflicted && Stream(t, scope) != [])
            && (e.freshness == Fresh <==> e.observation.Some?
                                          && EvaluateFreshness(e.observation.value, policy, live.epoch, nowMs) == Fresh)
            && (e.intent.Some? && e.observation.Some? && e.freshness == Fresh <==> Decidable(input))
  {
    hide Newest, EvaluateFreshness;
    if scope in t.intents { OneIntent(t.intents[scope]); }
  }

  /** A decidable scope is reported subject by subject over the union. */
  lemma DecidableReport(input: Input)
    requires ClassifySpec(input).Ok?
    ensures ClassifySpec(input).value.evidence == Drift.EvidenceOf(input)
    ensures Decidable(input) ==>
              var e := Drift.EvidenceOf(input);
              && Named(e.intent.value, e.observation.value, UnionSubjects(e.intent.value, e.observation.value))
              && ClassifySpec(input).value.records
                 == SubjectDrifts(input.scope, e.intent.value, e.observation.value, input.policy, e.evidence,
                                  UnionSubjects(e.intent.value, e.observation.value))
  {
    hide SubjectDrifts, Uniform, SelectIntent, SelectObservation, EvaluateFreshness, UnionSubjects, Named, Comparisons;
    var e := Drift.EvidenceOf(input);
    if Decidable(input) { UnionNamed(e.intent.value, e.observation.value); }
  }

  /** A plan claims convergence exactly when it has fresh, undisputed evidence for every subject of either
      document and every managed attribute of every subject agrees; it then holds nothing to act on. */
  lemma ConvergedProvenExactly(limits: Limits, t: Tables, live: Live, request: Request)
    requires PlanSpec(limits, t, live, request).Ok?
    ensures PlanSpec(limits, t, live, request).value.verdict == ConvergedProven <==> Converged(limits, t, live, request)
    ensures PlanSpec(limits, t, live, request).value.verdict == ConvergedProven
            ==> AllSatisfied(PlanSpec(limits, t, live, request).value.decisions)
  {
    hide ClassifySpec, Decisions, VerdictOf, AllSettled, AllSatisfied, EvaluateFreshness, SelectObservation,
         SubjectDrifts, UnionSubjects, Named, InputFor, Decidable;
    var policy := PolicyFor(t, request);
    var input := InputFor(t, live, policy, request.scope, request.nowMs);
    EngineEvidence(t, live, policy, request.scope, request.nowMs);
    InputFields(t, live, policy, request.scope, request.nowMs);
    DecidableReport(input);
    var report := ClassifySpec(input).value;
    var plan := PlanSpec(limits, t, live, request).value;
    var e := report.evidence;
    if Decidable(input) {
      var subjects := UnionSubjects(e.intent.value, e.observation.value);
      UnionSize(e.intent.value, e.observation.value);
      DriftsLength(request.scope, e.intent.value, e.observation.value, policy, e.evidence, subjects);
      if !plan.truncated {
        var c := ContextFor(limits, t, live, policy, request.scope, e);
        assert Bounded(report.records, limits.maxPlanActions) == report.records;
        ProvenExactly(e, plan.decisions);
        AllSatisfiedExactly(c, request.scope, e.intent.value, e.observation.value, policy, e.evidence);
      } else {
        VerdictNeeds(plan.truncated, e, plan.decisions);
      }
    } else {
      VerdictNeeds(plan.truncated, e, plan.decisions);
    }
  }

  lemma InputFields(t: Tables, live: Live, policy: Policy, scope: Id, nowMs: int)
    ensures var input := InputFor(t, live, policy, scope, nowMs); input.scope == scope && input.policy == policy
  {}

  lemma VerdictNeeds(truncated: bool, e: Evidence, decisions: seq<Decision>)
    ensures VerdictOf(truncated, e, decisions).0 == ConvergedProven
            ==> !truncated && e.intent.Some? && e.observation.Some? && e.freshness == Fresh
  {}

  lemma UnionSize(intent: Intent, o: Observation)
    ensures |UnionSubjects(intent, o)| == |intent.subjects.Keys + o.subjects.Keys|
    ensures forall s :: s in UnionSubjects(intent, o) <==> s in intent.subjects || s in o.subjects
  {
    var subjects := UnionSubjects(intent, o);
    assert forall s :: s in subjects <==> s in Elements(subjects);
  }

  lemma DecisionSettled(c: Context, scope: Id, intent: Intent, o: Observation, policy: Policy, evidence: EvidenceClass,
                        subjects: seq<Id>, n: nat)
    requires Named(intent, o, subjects) && n < |subjects|
    ensures var decisions := Decisions(c, SubjectDrifts(scope, intent, o, policy, evidence, subjects));
            && |decisions| == |subjects|
            && (decisions[n].disposition == AlreadySatisfied <==> SubjectSettled(policy, intent, o, subjects[n]))
  {
    hide Decisions, SubjectDrifts, SubjectDrift, DecisionFor, SubjectSettled, HasActionable;
    var records := SubjectDrifts(scope, intent, o, policy, evidence, subjects);
    DriftAt(scope, intent, o, policy, evidence, subjects, n);
    DecisionAt(c, records, n);
    SubjectConvergedExactly(scope, intent, o, policy, evidence, subjects[n]);
    SatisfiedExactly(c, records[n]);
  }

  lemma AllSatisfiedExactly(c: Context, scope: Id, intent: Intent, o: Observation, policy: Policy,
                            evidence: EvidenceClass)
    requires Named(intent, o, UnionSubjects(intent, o))
    ensures AllSatisfied(Decisions(c, SubjectDrifts(scope, intent, o, policy, evidence, UnionSubjects(intent, o))))
       <==> AllSettled(policy, intent, o)
  {
    hide Decisions, SubjectDrifts, SubjectSettled, UnionSubjects, Named;
    var subjects := UnionSubjects(intent, o);
    UnionSize(intent, o);
    DriftsLength(scope, intent, o, policy, evidence, subjects);
    var decisions := Decisions(c, SubjectDrifts(scope, intent, o, policy, evidence, subjects));
    if AllSatisfied(decisions) {
      forall s | s in intent.subjects || s in o.subjects ensures SubjectSettled(policy, intent, o, s) {
        assert s in subjects;
        var i :| 0 <= i < |subjects| && subjects[i] == s;
        DecisionSettled(c, scope, intent, o, policy, evidence, subjects, i);
      }
    }
    if AllSettled(policy, intent, o) {
      forall i | 0 <= i < |decisions| ensures decisions[i].disposition == AlreadySatisfied {
        assert subjects[i] in subjects;
        DecisionSettled(c, scope, intent, o, policy, evidence, subjects, i);
      }
    }
  }

  /** The convergence verdict takes no account of the policy's coverage requirement: turning the requirement on or
      off changes nothing. */
  lemma CoverageRequirementIgnored(limits: Limits, t: Tables, live: Live, scope: Id, nowMs: int, required: bool)
    requires t.policy.Some?
    ensures var request := Request(scope, None, nowMs);
            var u := t.(policy := Some(t.policy.value.(requireCoverageForProof := required)));
            var p, q := PlanSpec(limits, t, live, request), PlanSpec(limits, u, live, request);
            p.Ok? && q.Ok? ==> (p.value.verdict == ConvergedProven <==> q.value.verdict == ConvergedProven)
  {
    hide PlanSpec, SelectObservation;
    var request := Request(scope, None, nowMs);
    var u := t.(policy := Some(t.policy.value.(requireCoverageForProof := required)));
    if PlanSpec(limits, t, live, request).Ok? && PlanSpec(limits, u, live, request).Ok? {
      ConvergedProvenExactly(limits, t, live, request);
      ConvergedProvenExactly(limits, u, live, request);
    }
  }

  /** So a plan can claim convergence from an observation that covers only part of its scope, under a policy that
      requires complete coverage for such a claim. */
  lemma ConvergedOnPartialCoverage(limits: Limits, t: Tables, live: Live, d: Intent, o: Observation, nowMs: int, s: Id,
                                   k: Id, v: AttributeValue)
    requires t.policy.Some? && t.policy.value.requireCoverageForProof && t.policy.value.maxAgeMs == 0
    requires d.scope != [] && d.scope == o.scope && !o.complete && o.receivedEpoch == live.epoch
             && 1 <= limits.maxPlanActions
    requires d.subjects == o.subjects == map[s := Subject(true, map[k := v])] && IsValidValue(v)
             && !IsUnmanaged(t.policy.value, k)
    ensures var u := t.(intents := map[d.scope := d], observations := map[d.scope := [o]]);
            var plan := PlanSpec(limits, u, live, Request(d.scope, None, nowMs));
            plan.Ok? && plan.value.verdict == ConvergedProven
  {
    hide ClassifySpec, PlanFromReport;
    var u := t.(intents := map[d.scope := d], observations := map[d.scope := [o]]);
    var request := Request(d.scope, None, nowMs);
    OneObservation(o);
    assert d.subjects.Keys + o.subjects.Keys == {s};
    assert Converged(limits, u, live, request);
    InScope(InputFor(u, live, u.policy.value, d.scope, nowMs));
    ConvergedProvenExactly(limits, u, live, request);
  }

  lemma OneObservation(o: Observation)
    ensures SelectObservation([o]) == Selection(Some(o), false, NO_REASON)
  {
    assert Newest([o][0], [o][1..]) == o;
  }

  lemma InScope(input: Input)
    requires input.scope != []
    requires forall d :: d in input.intents ==> d.scope == input.scope
    requires forall d :: d in input.observations ==> d.scope == input.scope
    ensures ClassifySpec(input).Ok?
  {
    hide Uniform, SubjectDrifts, SelectIntent, SelectObservation, UnionSubjects, Comparisons;
  }

  // ---------------------------------------------------------------- what an action rests on

  /** An action is bound to this incarnation, to evidence this incarnation received, to the stored policy, and to a
      subject no fence covers. */
  ghost predicate Authorised(t: Tables, live: Live, plan: Plan, d: Decision) {
    && t.policy.Some? && plan.policyDigest == PolicyDigest(t.policy.value)
    && plan.live == live && d.scope == plan.scope
    && plan.evidence.intent.Some? && plan.evidence.observation.Some? && plan.evidence.freshness == Fresh
    && plan.evidence.observation.value.receivedEpoch == live.epoch
    && d.authority == AuthorityFor(live, t.policy.value, plan.evidence)
    && !FenceHolds(t.fences, d.scope, d.subject, live.epoch)
    && ((d.drift == Missing && d.action == ApplyDesired) || (d.drift == Mismatched && d.action == ApplyDesired)
        || (d.drift == Unexpected && d.action == WithdrawSubject))
  }

  lemma NothingFailed(a: Authority, live: Live, policy: Policy, freshnessOk: bool, fenced: bool)
    requires FailedComponents(a, live, policy, freshnessOk, fenced) == {}
    ensures freshnessOk && !fenced && a.observationEpoch == live.epoch && a.policyDigest == PolicyDigest(policy)
            && a.intent != []
  {
    hide PolicyDigest;
    var failed := FailedComponents(a, live, policy, freshnessOk, fenced);
    assert FreshnessComponent !in failed && FenceComponent !in failed && ObservationEpochComponent !in failed
           && PolicyDigestComponent !in failed && IntentDigestComponent !in failed;
  }

  lemma ActionableDecision(c: Context, r: DriftRecord)
    requires DecisionFor(c, r).disposition == Actionable
    ensures var d := DecisionFor(c, r);
            var authority := AuthorityFor(c.live, c.stored, c.evidence);
            && d.authority == authority && authority.policyDigest == PolicyDigest(c.policy)
            && authority.observationEpoch == c.live.epoch && authority.intent != []
            && c.evidence.freshness == Fresh && !FenceHolds(c.fences, r.scope, r.subject, c.live.epoch)
            && ((d.drift == Missing && d.action == ApplyDesired) || (d.drift == Mismatched && d.action == ApplyDesired)
                || (d.drift == Unexpected && d.action == WithdrawSubject))
  {
    hide AuthorityFor, FailedComponents, PolicyDigest, IdempotencyKey, AuthorityReason, FenceHolds, HasKind,
         HasPlainDelta;
    NothingFailed(AuthorityFor(c.live, c.stored, c.evidence), c.live, c.policy, c.evidence.freshness == Fresh,
                  FenceHolds(c.fences, r.scope, r.subject, c.live.epoch));
  }

  lemma AuthorityBindings(live: Live, stored: Policy, e: Evidence)
    ensures var a := AuthorityFor(live, stored, e);
            && a.epoch == live.epoch && a.boot == live.boot && a.policyDigest == PolicyDigest(stored)
            && (a.intent != [] ==> e.intent.Some?)
            && (e.observation.Some? ==> a.observationEpoch == e.observation.value.receivedEpoch)
  {
    hide PolicyDigest;
  }

  lemma FreshHasObservation(input: Input)
    ensures Drift.EvidenceOf(input).freshness == Fresh ==> Drift.EvidenceOf(input).observation.Some?
  {
    hide SelectIntent, SelectObservation, EvaluateFreshness;
  }

  /** No plan acts on a previous incarnation's evidence, under a policy that is not in force, or past a fence. */
  lemma ActionableIsAuthorised(limits: Limits, t: Tables, live: Live, request: Request, n: nat)
    requires PlanSpec(limits, t, live, request).Ok?
    requires n < |PlanSpec(limits, t, live, request).value.decisions|
    requires PlanSpec(limits, t, live, request).value.decisions[n].disposition == Actionable
    ensures var plan := PlanSpec(limits, t, live, request).value; Authorised(t, live, plan, plan.decisions[n])
    ensures Decidable(InputFor(t, live, PolicyFor(t, request), request.scope, request.nowMs))
  {
    hide ClassifySpec, Decisions, VerdictOf, DecisionFor, AuthorityFor, FenceHolds, PolicyDigest, InputFor, Decidable,
         SubjectDrifts, UnionSubjects, SelectObservation, EvaluateFreshness, SubjectDrift;
    var policy := PolicyFor(t, request);
    var input := InputFor(t, live, policy, request.scope, request.nowMs);
    var report := ClassifySpec(input).value;
    var c := ContextFor(limits, t, live, policy, request.scope, report.evidence);
    var records := Bounded(report.records, limits.maxPlanActions);
    DecisionAt(c, records, n);
    ActionableDecision(c, records[n]);
    AuthorityBindings(live, t.policy.value, report.evidence);
    EngineEvidence(t, live, policy, request.scope, request.nowMs);
    InputFields(t, live, policy, request.scope, request.nowMs);
    DecidableReport(input);
    FreshHasObservation(input);
    var e := report.evidence;
    var subjects := UnionSubjects(e.intent.value, e.observation.value);
    DriftsLength(request.scope, e.intent.value, e.observation.value, policy, e.evidence, subjects);
    DriftAt(request.scope, e.intent.value, e.observation.value, policy, e.evidence, subjects, n);
    DriftScope(request.scope, e.intent.value, e.observation.value, policy, e.evidence, subjects[n]);
    DecisionSubject(c, records[n]);
  }

  lemma DriftScope(scope: Id, intent: Intent, o: Observation, policy: Policy, evidence: EvidenceClass, s: Id)
    requires s in intent.subjects || s in o.subjects
    ensures var r := SubjectDrift(scope, intent, o, policy, evidence, s); r.scope == scope && r.subject == s
  {
    hide WalkSpec, SideDeltas, MismatchReason, HasActionable;
  }

  lemma DecisionSubject(c: Context, r: DriftRecord)
    ensures DecisionFor(c, r).scope == r.scope && DecisionFor(c, r).subject == r.subject
  {
    hide AuthorityFor, FailedComponents, IdempotencyKey, AuthorityReason, FenceHolds, EligibilityOf;
  }
}
