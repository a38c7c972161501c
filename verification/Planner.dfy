/** Plans: what one scope's evidence authorises, decision by decision, and the verdict over all of them. */
module Planner {
  import opened Bytes
  import opened Ordering
  import opened Model
  import opened DocumentCodec
  import opened LineageCodec
  import opened StoreState
  import opened Drift
  import opened Explain

  /** The incarnation that is planning. */
  datatype Live = Live(epoch: nat, boot: BootId)

  // ---------------------------------------------------------------- authority

  datatype Component =
    | EpochComponent | BootComponent | PolicyIdComponent | PolicyVersionComponent | PolicyDigestComponent
    | DefinitionComponent | IntentGenerationComponent | IntentDigestComponent | ObservationIdComponent
    | ObservationGenerationComponent | ReporterComponent | ObservationEpochComponent | FreshnessComponent
    | FenceComponent

  function FailedIf(fails: bool, c: Component): set<Component> {
    if fails then {c} else {}
  }

  /** The components of an authority vector that do not hold. An empty binding never holds. */
  function FailedComponents(a: Authority, live: Live, policy: Policy, freshnessOk: bool, fenced: bool): set<Component> {
    FailedIf(a.epoch != live.epoch, EpochComponent)
    + FailedIf(a.boot != live.boot, BootComponent)
    + FailedIf(a.policyId == [] || a.policyId != policy.id, PolicyIdComponent)
    + FailedIf(a.policyVersion != policy.version, PolicyVersionComponent)
    + FailedIf(a.policyDigest != PolicyDigest(policy), PolicyDigestComponent)
    + FailedIf(a.definition == [], DefinitionComponent)
    + FailedIf(a.intentGeneration == 0, IntentGenerationComponent)
    + FailedIf(a.intent == [], IntentDigestComponent)
    + FailedIf(a.observation == [], ObservationIdComponent)
    + FailedIf(a.observationGeneration == 0, ObservationGenerationComponent)
    + FailedIf(a.reporter == [], ReporterComponent)
    + FailedIf(a.observationEpoch != live.epoch, ObservationEpochComponent)
    + FailedIf(!freshnessOk, FreshnessComponent)
    + FailedIf(fenced, FenceComponent)
  }

  /** Why authority was refused: the strongest failed component speaks. */
  function AuthorityReason(failed: set<Component>, freshnessReason: ReasonCode): ReasonCode {
    if failed == {} then AUTHORITY_PROVEN
    else if FenceComponent in failed then SCOPE_FENCED
    else if FreshnessComponent in failed then freshnessReason
    else if EpochComponent in failed || BootComponent in failed then AUTHORITY_EPOCH_MISMATCH
    else if PolicyIdComponent in failed || PolicyVersionComponent in failed || PolicyDigestComponent in failed
    then AUTHORITY_POLICY_MISMATCH
    else if IntentGenerationComponent in failed || IntentDigestComponent in failed
    then AUTHORITY_INTENT_GENERATION_MISMATCH
    else if DefinitionComponent in failed then AUTHORITY_DEFINITION_MISMATCH
    else AUTHORITY_OBSERVATION_GENERATION_MISMATCH
  }

  /** The vector a decision is bound to: the live incarnation, the stored policy, and the selected evidence. */
  function AuthorityFor(live: Live, stored: Policy, e: Evidence): Authority {
    var blank := Authority(live.epoch, live.boot, stored.id, stored.version, PolicyDigest(stored), [], 0, [],
                           BLANK_DIGEST, [], 0, [], BLANK_DIGEST, 0, 0);
    var bound := if e.intent.None? then blank else
                 var d := e.intent.value;
                 blank.(definition := d.definition, intentGeneration := d.generation, intent := d.intent,
                        intentDigest := d.digest);
    if e.observation.None? then bound else
    var o := e.observation.value;
    bound.(observation := o.observation, observationGeneration := o.generation, reporter := o.reporter,
           observationDigest := o.digest, observationEpoch := o.receivedEpoch, observationReceivedMs := o.receivedMs)
  }

  // ---------------------------------------------------------------- fences

  predicate Covers(f: Fence, scope: Id, subject: Id) {
    f.scope == scope && (f.subject == [] || f.subject == subject)
  }

  predicate FenceHolds(fences: map<Id, Fence>, scope: Id, subject: Id, epoch: nat) {
    exists id :: id in fences && Covers(fences[id], scope, subject) && epoch < fences[id].fencedBelow
  }

  // ---------------------------------------------------------------- decisions

  datatype Disposition =
    | Actionable | Blocked | Conflicted | IndeterminateDecision | AlreadySatisfied | UnsupportedDecision
    | FencedDecision

  datatype Decision = Decision(
    scope: Id, subject: Id, drift: DriftClass, reason: ReasonCode, evidence: EvidenceClass, authority: Authority,
    action: ActionKind, disposition: Disposition, key: Digest, explanation: seq<Step>)

  /** What a drift class allows under a policy, before authority is considered. */
  datatype Eligibility = Eligibility(action: ActionKind, disposition: Disposition, reason: ReasonCode)

  predicate HasPlainDelta(deltas: seq<Delta>) {
    exists i :: 0 <= i < |deltas| && deltas[i].kind != ObserveOnly && deltas[i].kind != Unmanaged
  }

  function EligibilityOf(policy: Policy, record: DriftRecord): Eligibility {
    match record.drift
    case AlreadyConverged => Eligibility(NoAction, AlreadySatisfied, record.reason)
    case Missing =>
      if !policy.permitApplyMissing then Eligibility(NoAction, Blocked, POLICY_FORBIDS_APPLY_MISSING)
      else Eligibility(ApplyDesired, Actionable, record.reason)
    case Unexpected =>
      if !policy.permitWithdrawUnexpected then Eligibility(NoAction, Blocked, POLICY_FORBIDS_WITHDRAW_UNEXPECTED)
      else Eligibility(WithdrawSubject, Actionable, record.reason)
    case Mismatched =>
      if !policy.permitApplyMismatched then Eligibility(NoAction, Blocked, POLICY_FORBIDS_APPLY_MISMATCH)
      else if HasKind(record.deltas, ObserveOnly) then Eligibility(NoAction, Blocked, POLICY_FORBIDS_APPLY_MISMATCH)
      else if HasPlainDelta(record.deltas) then Eligibility(ApplyDesired, Actionable, record.reason)
      else Eligibility(NoAction, AlreadySatisfied, CLASSIFIED_ALREADY_CONVERGED)
    case Conflict => Eligibility(NoAction, Conflicted, record.reason)
    case UnsupportedDrift => Eligibility(NoAction, UnsupportedDecision, record.reason)
    case _ => Eligibility(NoAction, IndeterminateDecision, record.reason)
  }

  function StateOfSubject(subjects: map<Id, Subject>, subject: Id): Attributes {
    if subject in subjects then subjects[subject].attributes else map[]
  }

  function DesiredOf(e: Option<Intent>, subject: Id): Attributes {
    if e.Some? then StateOfSubject(e.value.subjects, subject) else map[]
  }

  function ExpectedOf(e: Option<Observation>, subject: Id): Attributes {
    if e.Some? then StateOfSubject(e.value.subjects, subject) else map[]
  }

  /** Everything a decision depends on besides its drift record. */
  datatype Context = Context(
    policy: Policy, stored: Policy, live: Live, fences: map<Id, Fence>, intent: Option<Intent>, evidence: Evidence,
    maxSteps: nat)

  // ---------------------------------------------------------------- why a decision was taken

  /** The components of an authority vector in the order they are rendered, and their names. */
  const COMPONENTS: seq<(Component, string)> := [
    (EpochComponent, "coordinator-epoch"), (BootComponent, "boot-identity"), (PolicyIdComponent, "policy-id"),
    (PolicyVersionComponent, "policy-version"), (PolicyDigestComponent, "policy-digest"),
    (DefinitionComponent, "definition"), (IntentGenerationComponent, "intent-generation"),
    (IntentDigestComponent, "intent-digest"), (ObservationIdComponent, "observation-identity"),
    (ObservationGenerationComponent, "observation-generation"), (ReporterComponent, "observation-reporter"),
    (ObservationEpochComponent, "observation-epoch"), (FreshnessComponent, "observation-freshness"),
    (FenceComponent, "fence")]

  function RenderComponents(failed: set<Component>, names: seq<(Component, string)>): seq<byte> {
    if names == [] then []
    else
      var before := RenderComponents(failed, names[..|names| - 1]);
      var (component, name) := names[|names| - 1];
      if component !in failed then before
      else if before == [] then AsBytes(name)
      else before + AsBytes(",") + AsBytes(name)
  }

  function RenderMask(failed: set<Component>): seq<byte> {
    if failed == {} then AsBytes("none") else RenderComponents(failed, COMPONENTS)
  }

  function AuthorityStep(failed: set<Component>, freshnessReason: ReasonCode): Step {
    if failed == {} then Step(AUTHORITY_PROVEN, [])
    else Step(AuthorityReason(failed, freshnessReason), RenderMask(failed))
  }

  /** The steps a drift class adds, under a policy. */
  function DriftSteps(policy: Policy, record: DriftRecord): seq<Step> {
    match record.drift
    case AlreadyConverged => []
    case Missing => [Step(if policy.permitApplyMissing then ACTION_ELIGIBLE else POLICY_FORBIDS_APPLY_MISSING, [])]
    case Unexpected =>
      [Step(if policy.permitWithdrawUnexpected then ACTION_ELIGIBLE else POLICY_FORBIDS_WITHDRAW_UNEXPECTED, [])]
    case Mismatched =>
      DeltaSteps(record.deltas)
      + (if !policy.permitApplyMismatched then [Step(POLICY_FORBIDS_APPLY_MISMATCH, [])]
         else if HasPlainDelta(record.deltas) && !HasKind(record.deltas, ObserveOnly) then [Step(ACTION_ELIGIBLE, [])]
         else [])
    case Conflict => [Step(DRIFT_IS_CONFLICTED, [])]
    case UnsupportedDrift => [Step(SUBJECT_KIND_UNSUPPORTED, [])]
    case _ => [Step(DRIFT_IS_INDETERMINATE, [])]
  }

  /** Everything a decision's explanation is offered. */
  function DecisionSteps(policy: Policy, record: DriftRecord, failed: set<Component>,
                         freshnessReason: ReasonCode): seq<Step> {
    [Step(record.reason, []), AuthorityStep(failed, freshnessReason)] + DriftSteps(policy, record)
  }

  function DecisionFor(c: Context, record: DriftRecord): Decision {
    var authority := AuthorityFor(c.live, c.stored, c.evidence);
    var fenced := FenceHolds(c.fences, record.scope, record.subject, c.live.epoch);
    var failed := FailedComponents(authority, c.live, c.policy, c.evidence.freshness == Fresh, fenced);
    var eligible := EligibilityOf(c.policy, record);
    var settled :=
      if eligible.disposition == Actionable && failed != {}
      then Eligibility(NoAction, if fenced then FencedDecision
                       else Blocked, AuthorityReason(failed, ReasonOfFreshness(c.evidence.freshness)))
      else eligible;
    Decision(record.scope, record.subject, record.drift, settled.reason, record.evidence, authority, settled.action,
             settled.disposition,
             IdempotencyKey(record.scope, record.subject, settled.action, authority,
                            DesiredOf(c.intent, record.subject), ExpectedOf(c.evidence.observation, record.subject)),
             FirstSteps(DecisionSteps(c.policy, record, failed, ReasonOfFreshness(c.evidence.freshness)), c.maxSteps))
  }

  function Decisions(c: Context, records: seq<DriftRecord>): (r: seq<Decision>)
    ensures |r| == |records|
  {
    if records == [] then []
    else Decisions(c, records[..|records| - 1]) + [DecisionFor(c, records[|records| - 1])]
  }

  // ---------------------------------------------------------------- the plan

  datatype Verdict = ConvergedProven | ConvergenceRequired | ProvenBlocked | IndeterminateVerdict | SearchLimitReached

  datatype Plan = Plan(
    scope: Id, live: Live, policyId: Id, policyVersion: nat, policyDigest: Digest, evidence: Evidence,
    verdict: Verdict, scopeReason: ReasonCode, explanation: seq<Step>, truncated: bool, decisions: seq<Decision>)

  datatype Request = Request(scope: Id, policy: Option<Policy>, nowMs: int)

  predicate HasDisposition(decisions: seq<Decision>, d: Disposition) {
    exists i :: 0 <= i < |decisions| && decisions[i].disposition == d
  }

  predicate Undecided(decisions: seq<Decision>) {
    HasDisposition(decisions, IndeterminateDecision) || HasDisposition(decisions, Conflicted)
    || HasDisposition(decisions, UnsupportedDecision)
  }

  function VerdictOf(truncated: bool, e: Evidence, decisions: seq<Decision>): (Verdict, ReasonCode) {
    if truncated then (SearchLimitReached, PLAN_TRUNCATED)
    else if e.intent.None? then (IndeterminateVerdict, NO_INTENT_FOR_SCOPE)
    else if e.observation.None? then (IndeterminateVerdict, NO_OBSERVATION_FOR_SCOPE)
    else if e.freshness != Fresh then (IndeterminateVerdict, ReasonOfFreshness(e.freshness))
    else if Undecided(decisions) then (IndeterminateVerdict, DRIFT_IS_INDETERMINATE)
    else if HasDisposition(decisions, Actionable) then (ConvergenceRequired, ACTION_ELIGIBLE)
    else if HasDisposition(decisions, Blocked) || HasDisposition(decisions, FencedDecision)
    then (ProvenBlocked, DRIFT_IS_CONFLICTED)
    else (ConvergedProven, CLASSIFIED_ALREADY_CONVERGED)
  }

  function CountDisposition(decisions: seq<Decision>, d: Disposition): nat {
    if decisions == [] then 0
    else
      CountDisposition(decisions[..|decisions| - 1], d) + (if decisions[|decisions| - 1].disposition == d then 1 else 0)
  }

  /** Why the verdict is what it is. */
  function ScopeStep(limits: Limits, truncated: bool, e: Evidence, decisions: seq<Decision>): Step {
    if truncated then
      Step(PLAN_ACTION_LIMIT_REACHED, AsBytes("decisions bounded at ") + Digits(limits.maxPlanActions))
    else if e.intent.None? then Step(NO_INTENT_FOR_SCOPE, [])
    else if e.observation.None? then Step(NO_OBSERVATION_FOR_SCOPE, [])
    else if e.freshness != Fresh then Step(ReasonOfFreshness(e.freshness), FreshnessText(e.freshness))
    else if Undecided(decisions) then
      Step(DRIFT_IS_INDETERMINATE,
           Digits(CountDisposition(decisions, IndeterminateDecision)) + AsBytes(" indeterminate subjects"))
    else if HasDisposition(decisions, Actionable) then
      Step(ACTION_ELIGIBLE, Digits(CountDisposition(decisions, Actionable)) + AsBytes(" actions required"))
    else if HasDisposition(decisions, Blocked) || HasDisposition(decisions, FencedDecision) then
      Step(DRIFT_IS_CONFLICTED, AsBytes("no legal plan reaches the intent under the active policy"))
    else Step(CLASSIFIED_ALREADY_CONVERGED, Digits(|decisions|) + AsBytes(" subjects proven equal"))
  }

  function CandidateIntents(t: Tables, scope: Id): seq<Intent> {
    if scope in t.intents then [t.intents[scope]] else []
  }

  function CurrentIntent(t: Tables, scope: Id): Option<Intent> {
    if scope in t.intents then Some(t.intents[scope]) else None
  }

  function Stream(t: Tables, scope: Id): seq<Observation> {
    GetOr(t.observations, scope, [])
  }

  function InputFor(t: Tables, live: Live, policy: Policy, scope: Id, nowMs: int): Input {
    Input(scope, CandidateIntents(t, scope), Stream(t, scope),
          if scope in t.intents then Some(t.intents[scope].generation) else None, policy, live.epoch, nowMs)
  }

  function PolicyFor(t: Tables, request: Request): Policy
    requires t.policy.Some?
  {
    if request.policy.Some? then request.policy.value else t.policy.value
  }

  function Bounded<T>(s: seq<T>, bound: nat): (r: seq<T>)
    ensures |r| <= bound
  {
    if |s| > bound then s[..bound] else s
  }

  function ContextFor(limits: Limits, t: Tables, live: Live, policy: Policy, scope: Id, e: Evidence): Context
    requires t.policy.Some?
  {
    Context(policy, t.policy.value, live, t.fences, CurrentIntent(t, scope), e, limits.maxExplanationSteps)
  }

  /** The plan a report leads to. */
  function PlanFromReport(limits: Limits, c: Context, scope: Id, report: Report): Plan {
    var truncated := |report.records| > limits.maxPlanActions;
    var decisions := Decisions(c, Bounded(report.records, limits.maxPlanActions));
    var verdict := VerdictOf(truncated, report.evidence, decisions);
    Plan(scope, c.live, c.policy.id, c.policy.version, PolicyDigest(c.policy), report.evidence, verdict.0, verdict.1,
         FirstSteps([ScopeStep(limits, truncated, report.evidence, decisions)], limits.maxExplanationSteps), truncated,
         decisions)
  }

  function PlanSpec(limits: Limits, t: Tables, live: Live, request: Request): Result<Plan> {
    if request.scope == [] then Refused(Rejected, UNSUPPORTED_INPUT)
    else if t.policy.None? then Refused(PreconditionFailed, NO_INTENT_FOR_SCOPE)
    else
      var policy := PolicyFor(t, request);
      var report := ClassifySpec(InputFor(t, live, policy, request.scope, request.nowMs));
      if report.Refused? then Refused(report.code, report.reason)
      else Ok(PlanFromReport(limits, ContextFor(limits, t, live, policy, request.scope, report.value.evidence),
                             request.scope, report.value))
  }
}
