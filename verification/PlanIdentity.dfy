/** Which states lead to plans of the same content, and so of the same identifier. */
module PlanIdentity {
  import opened Bytes
  import opened Ordering
  import opened Model
  import opened Canonical
  import opened DocumentCodec
  import opened LineageCodec
  import opened StoreState
  import opened Drift
  import opened Explain
  import opened Planner
  import opened PlanSeal
  import opened PlanTheorems
  import opened Replan

  // ---------------------------------------------------------------- which states lead to the same content

  /** A fence table counts only through the subjects it covers. */
  ghost predicate SameFences(a: map<Id, Fence>, b: map<Id, Fence>, scope: Id, epoch: nat) {
    forall s :: FenceHolds(a, scope, s, epoch) == FenceHolds(b, scope, s, epoch)
  }

  lemma DecisionIgnoresBoot(c: Context, k: Context, r: DriftRecord)
    requires k == c.(live := Live(c.live.epoch, k.live.boot), fences := k.fences)
    requires FenceHolds(c.fences, r.scope, r.subject, c.live.epoch)
          == FenceHolds(k.fences, r.scope, r.subject, c.live.epoch)
    ensures ContentOfDecision(DecisionFor(c, r)) == ContentOfDecision(DecisionFor(k, r))
  {
    hide FailedComponents, IdempotencyKey, AuthorityReason, FenceHolds, EligibilityOf, PolicyDigest, DesiredOf,
         ExpectedOf, AuthorityFor, DecisionSteps, FirstSteps;
    var f := FenceHolds(c.fences, r.scope, r.subject, c.live.epoch);
    assert f == FenceHolds(k.fences, r.scope, r.subject, k.live.epoch);
    var a, b := AuthorityFor(c.live, c.stored, c.evidence), AuthorityFor(k.live, k.stored, k.evidence);
    AuthorityIgnoresBoot(c.live, k.live, c.stored, c.evidence);
    FailedIgnoresBoot(c.live, k.live, c.stored, c.evidence, c.policy, c.evidence.freshness == Fresh, f);
    forall action: ActionKind, desired: Attributes, expected: Attributes
      ensures IdempotencyKey(r.scope, r.subject, action, a, desired, expected)
              == IdempotencyKey(r.scope, r.subject, action, b, desired, expected)
    {
      KeyIgnoresBoot(r.scope, r.subject, action, a, b, desired, expected);
    }
  }

  lemma AuthorityIgnoresBoot(x: Live, y: Live, stored: Policy, e: Evidence)
    requires x.epoch == y.epoch
    ensures AuthorityFor(y, stored, e) == AuthorityFor(x, stored, e).(boot := y.boot)
  {
    hide PolicyDigest;
  }

  lemma KeyIgnoresBoot(scope: Id, subject: Id, action: ActionKind, a: Authority, b: Authority, desired: Attributes,
                       expected: Attributes)
    requires b == a.(boot := b.boot)
    ensures IdempotencyKey(scope, subject, action, a, desired, expected)
            == IdempotencyKey(scope, subject, action, b, desired, expected)
  {}

  lemma FailedIgnoresBoot(x: Live, y: Live, stored: Policy, e: Evidence, policy: Policy, ok: bool, fenced: bool)
    requires x.epoch == y.epoch
    ensures FailedComponents(AuthorityFor(x, stored, e), x, policy, ok, fenced)
         == FailedComponents(AuthorityFor(y, stored, e), y, policy, ok, fenced)
  {
    hide AuthorityFor, PolicyDigest, FailedIf;
    AuthorityIgnoresBoot(x, y, stored, e);
    AuthorityBindings(x, stored, e);
    AuthorityBindings(y, stored, e);
  }

  /** What the classifier is given for a request. */
  function InputOf(t: Tables, x: Live, q: Request): Input
    requires t.policy.Some?
  {
    InputFor(t, x, PolicyFor(t, q), q.scope, q.nowMs)
  }

  /** The two states agree on everything a plan is built from but the evidence: both plan, in one epoch, under one
      policy, for one scope and intent, with the same subjects fenced. The clock readings may differ. */
  ghost predicate Alike(limits: Limits, t: Tables, u: Tables, x: Live, y: Live, q: Request, r: Request) {
    && PlanSpec(limits, t, x, q).Ok? && PlanSpec(limits, u, y, r).Ok? && x.epoch == y.epoch
    && r == q.(nowMs := r.nowMs) && t.policy == u.policy && t.policy.Some?
    && CurrentIntent(t, q.scope) == CurrentIntent(u, q.scope) && SameFences(t.fences, u.fences, q.scope, x.epoch)
  }

  /** Two incarnations of one epoch, or two states that differ in anything but this scope's policy, intent, selected
      observation and fences, planning at any two clock readings at which the selected observation is fresh, build
      plans of the same content and so of the same identifier. */
  lemma ContentDependsOnSelected(limits: Limits, t: Tables, u: Tables, x: Live, y: Live, q: Request, r: Request)
    requires Alike(limits, t, u, x, y, q, r)
    requires SelectObservation(Stream(t, q.scope)).selected == SelectObservation(Stream(u, q.scope)).selected
    requires Decidable(InputOf(t, x, q)) && Decidable(InputOf(u, y, r))
    ensures ContentOf(PlanSpec(limits, t, x, q).value) == ContentOf(PlanSpec(limits, u, y, r).value)
    ensures PlanId(PlanSpec(limits, t, x, q).value) == PlanId(PlanSpec(limits, u, y, r).value)
  {
    hide ClassifySpec, PlanSpec, Decidable, SelectIntent, SelectObservation, Stream, InputFor, ContentOf, PlanId,
         SameFences, CurrentIntent;
    var policy := PolicyFor(t, q);
    PlanIsReport(limits, t, x, q);
    PlanIsReport(limits, u, y, r);
    EngineSelections(t, x, policy, q.scope, q.nowMs);
    EngineSelections(u, y, policy, q.scope, r.nowMs);
    ReportDependsOnSelected(InputOf(t, x, q), InputOf(u, y, r));
    SameReportSameContent(limits, t, u, x, y, q, r);
  }

  /** While the evidence is disputed, missing or stale, the subjects of every retained observation count: there the
      whole stream is compared, and the clock counts only through the freshness it gives. */
  lemma ContentDependsOnStream(limits: Limits, t: Tables, u: Tables, x: Live, y: Live, q: Request, r: Request)
    requires Alike(limits, t, u, x, y, q, r)
    requires Stream(t, q.scope) == Stream(u, q.scope)
    requires Drift.EvidenceOf(InputOf(t, x, q)).freshness == Drift.EvidenceOf(InputOf(u, y, r)).freshness
    ensures ContentOf(PlanSpec(limits, t, x, q).value) == ContentOf(PlanSpec(limits, u, y, r).value)
    ensures PlanId(PlanSpec(limits, t, x, q).value) == PlanId(PlanSpec(limits, u, y, r).value)
  {
    hide ClassifySpec, PlanSpec, SelectIntent, SelectObservation, ContentOf, PlanId, SameFences, EvaluateFreshness;
    PlanIsReport(limits, t, x, q);
    PlanIsReport(limits, u, y, r);
    SameFreshnessSameReport(InputOf(t, x, q), InputOf(u, y, r));
    SameReportSameContent(limits, t, u, x, y, q, r);
  }

  lemma SameFreshnessSameReport(v: Input, w: Input)
    requires w == v.(nowMs := w.nowMs) && Drift.EvidenceOf(v).freshness == Drift.EvidenceOf(w).freshness
    ensures ClassifySpec(v) == ClassifySpec(w)
  {
    hide SubjectDrifts, Uniform, UnionSubjects, SelectIntent, SelectObservation, EvaluateFreshness, Comparisons,
         SortedKeys, IntentSubjects, ObservationSubjects;
  }

  lemma PlanIsReport(limits: Limits, t: Tables, x: Live, q: Request)
    requires PlanSpec(limits, t, x, q).Ok?
    ensures t.policy.Some? && ClassifySpec(InputOf(t, x, q)).Ok?
    ensures var report := ClassifySpec(InputOf(t, x, q)).value;
            PlanSpec(limits, t, x, q).value
            == PlanFromReport(limits, ContextFor(limits, t, x, PolicyFor(t, q), q.scope, report.evidence), q.scope,
                              report)
  {
    hide ClassifySpec, PlanFromReport, InputFor;
  }

  lemma SameReportSameContent(limits: Limits, t: Tables, u: Tables, x: Live, y: Live, q: Request, r: Request)
    requires Alike(limits, t, u, x, y, q, r)
    requires ClassifySpec(InputOf(t, x, q)).Ok? && ClassifySpec(InputOf(u, y, r)).Ok?
    requires ClassifySpec(InputOf(t, x, q)).value.records == ClassifySpec(InputOf(u, y, r)).value.records
    requires ClassifySpec(InputOf(t, x, q)).value.evidence == ClassifySpec(InputOf(u, y, r)).value.evidence
    ensures ContentOf(PlanSpec(limits, t, x, q).value) == ContentOf(PlanSpec(limits, u, y, r).value)
    ensures PlanId(PlanSpec(limits, t, x, q).value) == PlanId(PlanSpec(limits, u, y, r).value)
  {
    hide ClassifySpec, PlanSpec, PlanFromReport, InputFor, ContentOf, SealContent, SameFences, Decisions;
    PlanIsReport(limits, t, x, q);
    PlanIsReport(limits, u, y, r);
    var policy := PolicyFor(t, q);
    var report, other := ClassifySpec(InputOf(t, x, q)).value, ClassifySpec(InputOf(u, y, r)).value;
    var c := ContextFor(limits, t, x, policy, q.scope, report.evidence);
    var k := ContextFor(limits, u, y, policy, q.scope, report.evidence);
    RequestScope(t, x, q);
    RecordsInScope(InputOf(t, x, q), report.records, q.scope);
    PlansAgree(limits, c, k, q.scope, report, other);
  }

  lemma RequestScope(t: Tables, x: Live, q: Request)
    requires t.policy.Some?
    ensures InputOf(t, x, q).scope == q.scope
  {}

  lemma PlansAgree(limits: Limits, c: Context, k: Context, scope: Id, report: Report, other: Report)
    requires k == c.(live := Live(c.live.epoch, k.live.boot), fences := k.fences)
    requires forall i :: 0 <= i < |report.records| ==> report.records[i].scope == scope
    requires SameFences(c.fences, k.fences, scope, c.live.epoch)
    requires report.records == other.records && report.evidence == other.evidence
    ensures ContentOf(PlanFromReport(limits, c, scope, report)) == ContentOf(PlanFromReport(limits, k, scope, other))
  {
    hide Decisions, SameFences, VerdictOf, ScopeStep, FirstSteps, ContentOfDecisions, PolicyDigest;
    var records := Bounded(report.records, limits.maxPlanActions);
    var truncated := |report.records| > limits.maxPlanActions;
    ContentsAgree(c, k, records, scope);
    VerdictFromContent(limits, truncated, report.evidence, Decisions(c, records), Decisions(k, records));
  }

  // ---------------------------------------------------------------- plans of valid tables

  /** The counters of a plan built from valid tables are 64-bit numbers. */
  lemma PlanNumbered(limits: Limits, t: Tables, x: Live, q: Request)
    requires ValidTables(limits, t) && InU64(x.epoch) && (q.policy.Some? ==> InU64(q.policy.value.version))
    requires PlanSpec(limits, t, x, q).Ok?
    ensures Numbered(ContentOf(PlanSpec(limits, t, x, q).value))
  {
    hide ClassifySpec, PlanSpec, Decisions, VerdictOf, ScopeStep, FirstSteps, ContentOfDecisions, PolicyDigest,
         SelectIntent, SelectObservation, ValidTables, EvaluateFreshness;
    PlanIsReport(limits, t, x, q);
    DecidableReport(InputOf(t, x, q));
    EngineEvidence(t, x, PolicyFor(t, q), q.scope, q.nowMs);
    SelectedIsCandidate(Stream(t, q.scope));
    var o := SelectObservation(Stream(t, q.scope)).selected;
    if o.Some? { StreamValid(limits, t, q.scope, o.value); }
    TablesNumbered(limits, t, q.scope);
  }

  lemma TablesNumbered(limits: Limits, t: Tables, scope: Id)
    requires ValidTables(limits, t)
    ensures t.policy.Some? ==> InU64(t.policy.value.version)
    ensures scope in t.intents ==> InU64(t.intents[scope].generation)
  {
    hide ValidIdText, ValidSubjects, IntentDigest, PolicyDigest, ValidAttempts, ValidOutcomes, ValidFences,
         ValidGenerationTable, ValidObservation;
  }

  /** Two plans built from valid tables have one identifier exactly when they have one content, while their encodings
      fit under the writer's ceiling and unless the digest collides on them. */
  lemma PlanIdTellsApart(limits: Limits, t: Tables, u: Tables, x: Live, y: Live, q: Request, r: Request)
    requires ValidTables(limits, t) && InU64(x.epoch) && (q.policy.Some? ==> InU64(q.policy.value.version))
    requires ValidTables(limits, u) && InU64(y.epoch) && (r.policy.Some? ==> InU64(r.policy.value.version))
    requires PlanSpec(limits, t, x, q).Ok? && PlanSpec(limits, u, y, r).Ok?
    requires var a, b := ContentOf(PlanSpec(limits, t, x, q).value), ContentOf(PlanSpec(limits, u, y, r).value);
             Fits(PutContent(a, [])) && Fits(PutContent(b, [])) && NoCollision(PutContent(a, []), PutContent(b, []))
    ensures var a, b := PlanSpec(limits, t, x, q).value, PlanSpec(limits, u, y, r).value;
            PlanId(a) == PlanId(b) <==> ContentOf(a) == ContentOf(b)
  {
    hide PlanSpec, ValidTables, ContentOf, PutContent, PlanId, Fits, Numbered;
    PlanNumbered(limits, t, x, q);
    PlanNumbered(limits, u, y, r);
    PlanIdBinds(PlanSpec(limits, t, x, q).value, PlanSpec(limits, u, y, r).value);
  }

  /** Fences that agree on the first `n` subjects of a plan. */
  ghost predicate SameFirst(a: map<Id, Fence>, b: map<Id, Fence>, p: Plan, n: nat) {
    forall i :: 0 <= i < n && i < |p.decisions| ==>
                  var (scope, subject) := (p.decisions[i].scope, p.decisions[i].subject);
                  FenceHolds(a, scope, subject, p.live.epoch) == FenceHolds(b, scope, subject, p.live.epoch)
  }

  /** A plan cut at its action limit whose first `n` decisions overflow the writer keeps its identifier when fences
      over later subjects come or go, although the decisions for those subjects change. */
  lemma LateFenceUnseen(limits: Limits, t: Tables, fences: map<Id, Fence>, x: Live, q: Request, n: nat)
    requires PlanSpec(limits, t, x, q).Ok?
    requires var p := PlanSpec(limits, t, x, q).value;
             p.truncated && n <= |ContentOf(p).decisions| && Overflows(ContentOf(p), n)
             && SameFirst(t.fences, fences, p, n)
    ensures PlanSpec(limits, t.(fences := fences), x, q).Ok?
    ensures PlanId(PlanSpec(limits, t.(fences := fences), x, q).value) == PlanId(PlanSpec(limits, t, x, q).value)
  {
    hide PlanSpec, ClassifySpec, PlanFromReport, ContentOf, PlanId, Overflows, SameFirst, InputFor;
    var u := t.(fences := fences);
    PlanIsReport(limits, t, x, q);
    FencesPlanAlike(limits, t, fences, x, q);
    PlanIsReport(limits, u, x, q);
    var report := ClassifySpec(InputOf(t, x, q)).value;
    var c := ContextFor(limits, t, x, PolicyFor(t, q), q.scope, report.evidence);
    var k := c.(fences := fences);
    LateDecisions(limits, c, k, q.scope, report, n);
    PlanIdForgets(PlanFromReport(limits, c, q.scope, report), PlanFromReport(limits, k, q.scope, report), n);
  }

  lemma FencesPlanAlike(limits: Limits, t: Tables, fences: map<Id, Fence>, x: Live, q: Request)
    requires PlanSpec(limits, t, x, q).Ok?
    ensures PlanSpec(limits, t.(fences := fences), x, q).Ok?
    ensures t.policy.Some? && InputOf(t.(fences := fences), x, q) == InputOf(t, x, q)
  {
    hide ClassifySpec, PlanFromReport;
  }

  lemma LateDecisions(limits: Limits, c: Context, k: Context, scope: Id, report: Report, n: nat)
    requires k == c.(fences := k.fences) && PlanFromReport(limits, c, scope, report).truncated
    requires n <= |ContentOf(PlanFromReport(limits, c, scope, report)).decisions|
    requires SameFirst(c.fences, k.fences, PlanFromReport(limits, c, scope, report), n)
    ensures var a := ContentOf(PlanFromReport(limits, c, scope, report));
            var b := ContentOf(PlanFromReport(limits, k, scope, report));
            && b == a.(decisions := b.decisions) && |a.decisions| == |b.decisions|
            && b.decisions[..n] == a.decisions[..n]
  {
    hide Decisions, FirstSteps, PolicyDigest, ContentOfDecision, DecisionFor, FenceHolds;
    var records := Bounded(report.records, limits.maxPlanActions);
    var ds, es := Decisions(c, records), Decisions(k, records);
    forall i | 0 <= i < n ensures ContentOfDecision(ds[i]) == ContentOfDecision(es[i]) {
      DecisionAt(c, records, i);
      DecisionAt(k, records, i);
      DecisionNames(c, records[i]);
      DecisionIgnoresBoot(c, k, records[i]);
    }
    assert ContentOfDecisions(ds)[..n] == ContentOfDecisions(es)[..n];
  }

  lemma DecisionNames(c: Context, r: DriftRecord)
    ensures DecisionFor(c, r).scope == r.scope && DecisionFor(c, r).subject == r.subject
  {
    hide AuthorityFor, FenceHolds, FailedComponents, EligibilityOf, IdempotencyKey, FirstSteps, DecisionSteps;
  }

  lemma {:induction false} UniformScope(scope: Id, drift: DriftClass, reason: ReasonCode, evidence: EvidenceClass,
                                        subjects: seq<Id>)
    ensures forall r :: r in Uniform(scope, drift, reason, evidence, subjects) ==> r.scope == scope
    decreases |subjects|
  {
    if subjects != [] { UniformScope(scope, drift, reason, evidence, subjects[..|subjects| - 1]); }
  }

  /** Evidence that is disputed, missing or stale gives every subject the same verdict. */
  lemma UndecidedIsUniform(input: Input)
    returns (drift: DriftClass, reason: ReasonCode, evidence: EvidenceClass, subjects: seq<Id>)
    requires ClassifySpec(input).Ok? && !Decidable(input)
    ensures ClassifySpec(input).value.records == Uniform(input.scope, drift, reason, evidence, subjects)
  {
    hide SubjectDrifts, Uniform, UnionSubjects, SelectIntent, SelectObservation, EvaluateFreshness, Comparisons,
         SortedKeys, IntentSubjects, ObservationSubjects;
    var e := Drift.EvidenceOf(input);
    var intents, observations := SelectIntent(input.intents), SelectObservation(input.observations);
    evidence := e.evidence;
    subjects := SortedKeys(IntentSubjects(input.intents) + ObservationSubjects(input.observations));
    var regressed := input.committed.Some? && e.intent.Some? && e.intent.value.generation < input.committed.value;
    if intents.conflicted || observations.conflicted {
      drift, reason := Conflict, if intents.conflicted then intents.reason else observations.reason;
    } else if regressed || (e.intent.None? && input.committed.Some?) {
      drift, reason := StaleIntent, if regressed then INTENT_GENERATION_REGRESSED else NO_INTENT_FOR_SCOPE;
    } else if e.intent.None? {
      drift, reason := UnknownDrift, NO_INTENT_FOR_SCOPE;
    } else if e.observation.None? {
      drift, reason, subjects := UnknownDrift, NO_OBSERVATION_FOR_SCOPE, SortedKeys(e.intent.value.subjects.Keys);
    } else {
      drift, reason := StaleObservation, ReasonOfFreshness(e.freshness);
    }
  }

  lemma RecordsInScope(input: Input, records: seq<DriftRecord>, scope: Id)
    requires ClassifySpec(input).Ok? && records == ClassifySpec(input).value.records && scope == input.scope
    ensures forall i :: 0 <= i < |records| ==> records[i].scope == scope
  {
    hide ClassifySpec, Decidable, Uniform;
    if Decidable(input) {
      DecidableInScope(input, records, scope);
    } else {
      var drift, reason, evidence, subjects := UndecidedIsUniform(input);
      UniformScope(scope, drift, reason, evidence, subjects);
    }
  }

  lemma DecidableInScope(input: Input, records: seq<DriftRecord>, scope: Id)
    requires ClassifySpec(input).Ok? && Decidable(input) && records == ClassifySpec(input).value.records
             && scope == input.scope
    ensures forall i :: 0 <= i < |records| ==> records[i].scope == scope
  {
    hide ClassifySpec, SubjectDrifts, SubjectDrift, UnionSubjects, SelectIntent, SelectObservation, EvaluateFreshness;
    DecidableReport(input);
    var e := Drift.EvidenceOf(input);
    var subjects := UnionSubjects(e.intent.value, e.observation.value);
    DriftsLength(scope, e.intent.value, e.observation.value, input.policy, e.evidence, subjects);
    forall i | 0 <= i < |records| ensures records[i].scope == scope {
      DriftAt(scope, e.intent.value, e.observation.value, input.policy, e.evidence, subjects, i);
      DriftScope(scope, e.intent.value, e.observation.value, input.policy, e.evidence, subjects[i]);
    }
  }

  lemma ContentsAgree(c: Context, k: Context, records: seq<DriftRecord>, scope: Id)
    requires k == c.(live := Live(c.live.epoch, k.live.boot), fences := k.fences)
    requires forall i :: 0 <= i < |records| ==> records[i].scope == scope
    requires SameFences(c.fences, k.fences, scope, c.live.epoch)
    ensures ContentOfDecisions(Decisions(c, records)) == ContentOfDecisions(Decisions(k, records))
  {
    hide Decisions, DecisionFor, ContentOfDecision, FenceHolds;
    var ds, es := Decisions(c, records), Decisions(k, records);
    forall i | 0 <= i < |records| ensures ContentOfDecision(ds[i]) == ContentOfDecision(es[i]) {
      DecisionAt(c, records, i);
      DecisionAt(k, records, i);
      DecisionIgnoresBoot(c, k, records[i]);
    }
    assert |ds| == |es| == |records|;
    assert ContentOfDecisions(ds) == ContentOfDecisions(es);
  }

  lemma VerdictFromContent(limits: Limits, truncated: bool, e: Evidence, ds: seq<Decision>, es: seq<Decision>)
    requires ContentOfDecisions(ds) == ContentOfDecisions(es)
    ensures VerdictOf(truncated, e, ds) == VerdictOf(truncated, e, es)
    ensures ScopeStep(limits, truncated, e, ds) == ScopeStep(limits, truncated, e, es)
  {
    hide Digits, AsBytes, CountDisposition;
    assert |ds| == |ContentOfDecisions(ds)| == |es|;
    forall i | 0 <= i < |ds| ensures ds[i].disposition == es[i].disposition {
      assert ContentOfDecisions(ds)[i] == ContentOfDecisions(es)[i];
    }
    forall d: Disposition ensures HasDisposition(ds, d) == HasDisposition(es, d) {}
    forall d: Disposition ensures CountDisposition(ds, d) == CountDisposition(es, d) { CountsAgree(ds, es, d); }
  }

  lemma {:induction false} CountsAgree(ds: seq<Decision>, es: seq<Decision>, d: Disposition)
    requires |ds| == |es| && forall i :: 0 <= i < |ds| ==> ds[i].disposition == es[i].disposition
    ensures CountDisposition(ds, d) == CountDisposition(es, d)
  {
    if ds != [] { CountsAgree(ds[..|ds| - 1], es[..|es| - 1], d); }
  }
}
