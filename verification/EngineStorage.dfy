/** The engine over the durable store: everything an operation writes can be replayed, with one exception, so the
    tables a run works on are the tables any reopen rebuilds. */
module EngineStorage {
  import opened Bytes
  import opened Ordering
  import opened Model
  import opened Canonical
  import opened DocumentCodec
  import opened LineageCodec
  import opened StoreState
  import opened RecordSizes
  import opened Drift
  import opened Planner
  import opened PlanTheorems
  import opened Replan
  import opened Engine
  import opened EngineRuns
  import opened LogTheorems
  import opened EngineSafety
  import SP = StoreProtocol

  // ---------------------------------------------------------------- what callers can pass

  predicate TypedSubjects(subjects: map<Id, Subject>) {
    forall s :: s in subjects ==> OptionalId(s) && TypedState(subjects[s].attributes)
  }

  predicate TypedState(m: Attributes) {
    forall k :: k in m ==> OptionalId(k) && ValueInRange(m[k])
  }

  predicate TypedPolicy(p: Policy) {
    && OptionalId(p.id) && InU64(p.version) && InI64(p.maxAgeMs)
    && (forall k :: k in p.unmanaged ==> OptionalId(k)) && (forall k :: k in p.observeOnly ==> OptionalId(k))
  }

  /** The identity and integer types of the arguments, and clock readings in range. */
  predicate TypedOp(op: Op) {
    match op
    case PutPolicy(p, _) => TypedPolicy(p)
    case CommitIntent(d) =>
      OptionalId(d.intent) && OptionalId(d.scope) && OptionalId(d.definition) && InU64(d.generation)
      && InU64(d.policyVersion) && TypedSubjects(d.subjects)
    case RecordObservation(s, at, clock) =>
      && OptionalId(s.observation) && OptionalId(s.scope) && OptionalId(s.reporter) && InU64(s.generation)
      && TypedSubjects(s.subjects)
      && InI64(at) && InI64(clock)
    case DispatchPlan(_, clock) => InI64(clock)
    case Complete(c, clock) => InI64(c.atMs) && InI64(clock) && c.reason <= LAST_REASON
    case Verify(v, clock) => InU64(v.generation) && InI64(v.receivedMs) && InI64(clock)
    case PutFence(f, clock) => OptionalId(f.id) && OptionalId(f.scope) && OptionalId(f.subject) && InU64(f.fencedBelow)
                               && f.reason <= LAST_REASON
                               && InI64(f.createdMs) && InI64(clock)
    case ClearFence(id) => OptionalId(id)
  }

  /** A record that replay accepts, or a fence that only its detail text keeps out. */
  predicate Storable(limits: Limits, e: Entry) {
    ValidEntry(limits, e) || (e.FencePut? && TypedFence(e.fence))
  }

  predicate AllStorable(limits: Limits, entries: seq<Entry>) {
    forall i :: 0 <= i < |entries| ==> Storable(limits, entries[i])
  }

  lemma CommitKeepsValid(limits: Limits, t: Tables, e: Entry)
    requires ValidTables(limits, t) && Storable(limits, e)
    ensures ValidTables(limits, Commit(limits, t, e))
  {
    hide ValidTables, Apply, ValidPolicy, ValidIntent, ValidObservation, ValidAttempt, ValidOutcome, TypedFence;
    if ValidEntry(limits, e) { ApplyKeepsValid(limits, t, e); }
  }

  lemma {:induction false} CommitAllKeepsValid(limits: Limits, t: Tables, entries: seq<Entry>)
    requires ValidTables(limits, t) && AllStorable(limits, entries)
    ensures ValidTables(limits, CommitAll(limits, t, entries))
    decreases |entries|
  {
    hide ValidTables, Storable, Commit;
    if entries != [] {
      CommitKeepsValid(limits, t, entries[0]);
      CommitAllKeepsValid(limits, Commit(limits, t, entries[0]), entries[1..]);
    }
  }

  // ---------------------------------------------------------------- documents

  lemma ValidatedState(limits: Limits, m: Attributes)
    requires TypedState(m) && ValidateState(limits, m).Ok?
    ensures ValidAttributes(limits, m)
  {
    hide ValidIdText, IsValidValue, ValueInRange;
  }

  lemma ValidatedSubjects(limits: Limits, named: bool, subjects: map<Id, Subject>)
    requires TypedSubjects(subjects) && ValidateDocument(limits, named, subjects).Ok?
    ensures named && ValidSubjects(limits, subjects) && |subjects| <= limits.maxSubjectsPerDocument
  {
    hide ValidIdText, ValidateState, ValidAttributes, TypedState;
    SortedKeysIn(subjects);
    forall s | s in subjects ensures ValidIdText(s) && ValidAttributes(limits, subjects[s].attributes) {
      assert s in SortedKeys(subjects.Keys);
      ValidatedState(limits, subjects[s].attributes);
    }
  }

  lemma CanonicalStorable(limits: Limits, p: Policy)
    requires TypedPolicy(p)
    ensures CanonicalisePolicy(limits, p).Ok? ==> ValidPolicy(limits, CanonicalisePolicy(limits, p).value)
  {
    hide ValidIdText, SortUnique, ValidPolicy;
    if CanonicalisePolicy(limits, p).Ok? {
      ListValid(p.unmanaged);
      ListValid(p.observeOnly);
      CanonicalIsValid(limits, p);
    }
  }

  lemma ListValid(ids: seq<Id>)
    requires (forall k :: k in ids ==> OptionalId(k)) && [] !in SortUnique(ids)
    ensures AllValid(ids)
  {
    hide ValidIdText;
    forall k | k in ids ensures ValidIdText(k) {
      assert k in Elements(SortUnique(ids));
      assert k != [];
    }
  }

  lemma IntentStorable(limits: Limits, t: Tables, d: Intent)
    requires TypedOp(CommitIntent(d))
    ensures AllStorable(limits, CommitIntentOp(limits, t, d).entries)
  {
    hide ValidIdText, TypedSubjects, ValidSubjects, ValidateDocument, IntentDigest;
    if CommitIntentOp(limits, t, d).entries != [] {
      ValidatedSubjects(limits, d.intent != [] && d.scope != [] && d.definition != [], d.subjects);
      IntentDigestIgnoresDigest(d, IntentDigest(d));
    }
  }

  lemma IntentDigestIgnoresDigest(d: Intent, digest: Digest)
    ensures IntentDigest(d.(digest := digest)) == IntentDigest(d)
  {}

  lemma ObservationStorable(limits: Limits, t: Tables, live: Live, s: Submission, at: int, clock: int)
    requires TypedOp(RecordObservation(s, at, clock)) && InU64(live.epoch)
    ensures AllStorable(limits, RecordOp(limits, t, live, s, at, clock).entries)
  {
    hide ValidIdText, TypedSubjects, ValidSubjects, ValidateDocument, ObservationDigest, FirstSame, Stream;
    if RecordOp(limits, t, live, s, at, clock).entries != [] {
      ValidatedSubjects(limits, s.observation != [] && s.scope != [] && s.reporter != [], s.subjects);
      var d := Stamped(s, live.epoch, Stamp(at, clock));
      ObservationDigestIgnoresDigest(d.(digest := BLANK_DIGEST), d.digest);
    }
  }

  // ---------------------------------------------------------------- attempts and outcomes

  lemma MovedValid(limits: Limits, a: Attempt, step: Transition)
    requires ValidAttempt(limits, a) && ValidTransition(step) && step.to != InvalidState && limits.maxTransitions >= 1
    ensures ValidAttempt(limits, Moved(limits, a, step)) && ValidAttempt(limits, MovedByRestart(limits, a, step))
  {
    hide ValidAuthority, ValidIdText, ValidTransition;
  }

  lemma OutcomeValid(limits: Limits, a: Attempt, state: AttemptState, reason: ReasonCode, ambiguous: bool, nowMs: int,
                     generation: nat)
    requires ValidAttempt(limits, a) && reason <= LAST_REASON && InI64(nowMs) && InU64(generation)
    ensures ValidOutcome(OutcomeOf(a, state, reason, ambiguous, nowMs, generation))
  {
    hide ValidAuthority, ValidIdText, ValidTransition;
  }

  lemma TableAttemptValid(limits: Limits, t: Tables, id: nat)
    requires ValidTables(limits, t) && id in t.attempts
    ensures ValidAttempt(limits, t.attempts[id])
  {
    hide ValidIntents, ValidObservations, ValidOutcomes, ValidFences, ValidPolicy, ValidGenerationTable, ValidAttempt;
  }

  lemma CloseStorable(limits: Limits, live: Live, closing: Closing, a: Attempt, nowMs: int)
    requires ValidAttempt(limits, a) && InU64(live.epoch) && InI64(nowMs) && limits.maxTransitions >= 1
    ensures AllStorable(limits, CloseEntries(limits, live, closing, a, nowMs))
  {
    hide ValidAttempt, ValidOutcome, Moved, MovedByRestart, OutcomeOf;
    var step := ClosingStep(live, closing, a, nowMs);
    MovedValid(limits, a, step);
    var moved := if closing == ByRestart then MovedByRestart(limits, a, step) else Moved(limits, a, step);
    OutcomeValid(limits, moved, step.to, step.reason, closing == ByRestart && a.state != Issued, nowMs, 0);
  }

  lemma {:induction false} CloseAllStorable(limits: Limits, t: Tables, live: Live, closing: Closing, ids: seq<nat>,
                                            nowMs: int)
    requires ValidTables(limits, t) && (forall id :: id in ids ==> id in t.attempts)
    requires InU64(live.epoch) && InI64(nowMs) && limits.maxTransitions >= 1
    ensures AllStorable(limits, CloseAll(limits, live, closing, t.attempts, ids, nowMs))
    decreases |ids|
  {
    hide ValidTables, CloseEntries, Storable, ValidAttempt;
    if ids != [] {
      TableAttemptValid(limits, t, ids[0]);
      CloseStorable(limits, live, closing, t.attempts[ids[0]], nowMs);
      CloseAllStorable(limits, t, live, closing, ids[1..], nowMs);
    }
  }

  lemma CompleteStorable(limits: Limits, t: Tables, live: Live, c: Completion, clock: int)
    requires ValidTables(limits, t) && InU64(live.epoch) && TypedOp(Complete(c, clock)) && limits.maxTransitions >= 1
    ensures AllStorable(limits, CompleteOp(limits, t, live, c, clock).entries)
  {
    hide ValidTables, ValidAttempt, ValidOutcome, Moved, OutcomeOf;
    var entries := CompleteOp(limits, t, live, c, clock).entries;
    if entries != [] {
      var a := t.attempts[c.attempt];
      TableAttemptValid(limits, t, c.attempt);
      var now := Stamp(c.atMs, clock);
      var reason := if c.reason != NO_REASON then c.reason else ReasonOfState(c.target);
      var step := Transition(a.state, c.target, live.epoch, live.boot, now, reason, NO_REASON);
      MovedValid(limits, a, step);
      OutcomeValid(limits, Moved(limits, a, step), c.target, reason, IsInconclusive(c.target), now, 0);
    }
  }

  lemma VerifyStorable(limits: Limits, t: Tables, live: Live, v: Verification, clock: int)
    requires ValidTables(limits, t) && InU64(live.epoch) && TypedOp(Verify(v, clock)) && limits.maxTransitions >= 1
    ensures AllStorable(limits, VerifyOp(limits, t, live, v, clock).entries)
  {
    hide ValidTables, ValidAttempt, ValidOutcome, Moved, OutcomeOf, FirstSame, EvaluateFreshness, Stream;
    var entries := VerifyOp(limits, t, live, v, clock).entries;
    if entries != [] {
      var id := Smallest(WithKey(t.attempts, v.key));
      var a := t.attempts[id];
      TableAttemptValid(limits, t, id);
      var now := Stamp(v.receivedMs, clock);
      var next, reason := if v.confirmsEffect then Verified else Failed, if v.confirmsEffect then ATTEMPT_VERIFIED
                          else ATTEMPT_FAILED;
      var step := Transition(a.state, next, live.epoch, live.boot, now, reason,
                             if v.confirmsEffect then ATTEMPT_VERIFIED else VERIFICATION_NOT_NEWER);
      MovedValid(limits, a, step);
      OutcomeValid(limits, Moved(limits, a, step), next, reason, !v.confirmsEffect, now, v.generation);
    }
  }

  lemma FenceStorable(limits: Limits, t: Tables, live: Live, f: Fence, clock: int)
    requires ValidTables(limits, t) && InU64(live.epoch) && TypedOp(PutFence(f, clock)) && limits.maxTransitions >= 1
    ensures AllStorable(limits, PutFenceOp(limits, t, live, f, clock).entries)
  {
    hide ValidTables, ValidIdText, CloseAll, Victims;
    var now := Stamp(f.createdMs, clock);
    var entry := f.(createdMs := now);
    if f.id != [] && f.scope != [] && f.fencedBelow != 0 {
      assert TypedFence(entry);
      if ValidFence(entry) {
        VictimsKnown(t.attempts, entry);
        CloseAllStorable(limits, t, live, ByFence, SortedIds(Victims(t.attempts, entry)), now);
      }
    }
  }

  // ---------------------------------------------------------------- plans and dispatch

  /** The plan's actions name well-formed identities and carry an authority that can be stored. */
  ghost predicate PlanStorable(plan: Plan) {
    forall i :: 0 <= i < |plan.decisions| && plan.decisions[i].disposition == Actionable
                ==> DecisionStorable(plan.decisions[i])
  }

  predicate DecisionStorable(d: Decision) {
    ValidIdText(d.scope) && ValidIdText(d.subject) && ValidAuthority(d.authority)
  }

  lemma AuthorityStorable(limits: Limits, live: Live, stored: Policy, e: Evidence)
    requires InU64(live.epoch) && ValidPolicy(limits, stored)
    requires e.intent.Some? ==> ValidIntent(limits, e.intent.value)
    requires e.observation.Some? ==> ValidObservation(limits, e.observation.value)
    ensures ValidAuthority(AuthorityFor(live, stored, e))
  {
    hide ValidIdText, ValidSubjects, IntentDigest, ObservationDigest, PolicyDigest, Ascending, AllValid;
  }

  lemma BuiltPlanStorable(limits: Limits, t: Tables, live: Live, request: Request, plan: Plan)
    requires ValidTables(limits, t) && InU64(live.epoch) && OptionalId(request.scope)
    requires PlanSpec(limits, t, live, request) == Ok(plan)
    ensures PlanStorable(plan)
  {
    hide ValidTables, PlanSpec, ValidAuthority, ValidIdText, Decidable, InputFor;
    forall n | 0 <= n < |plan.decisions| && plan.decisions[n].disposition == Actionable
      ensures DecisionStorable(plan.decisions[n]) {
      ActionableIsAuthorised(limits, t, live, request, n);
      PlannedFrom(limits, t, live, request, plan);
      EvidenceValid(limits, t, plan);
      AuthorityStorable(limits, live, t.policy.value, plan.evidence);
      ActionableSubject(limits, t, live, request, plan, n);
      SubjectValid(limits, plan, plan.decisions[n].subject);
    }
  }

  lemma EvidenceValid(limits: Limits, t: Tables, plan: Plan)
    requires ValidTables(limits, t)
    requires plan.evidence.intent == CurrentIntent(t, plan.scope)
    requires plan.evidence.observation == SelectObservation(Stream(t, plan.scope)).selected
    ensures plan.evidence.intent.Some? ==> ValidIntent(limits, plan.evidence.intent.value)
    ensures plan.evidence.observation.Some? ==> ValidObservation(limits, plan.evidence.observation.value)
    ensures t.policy.Some? ==> ValidPolicy(limits, t.policy.value)
  {
    hide ValidIntent, ValidObservation, ValidPolicy, SelectObservation, ValidObservations, ValidAttempts, ValidOutcomes,
         ValidFences, ValidGenerationTable, Stream;
    SelectedIsCandidate(Stream(t, plan.scope));
    if plan.evidence.observation.Some? { StreamValid(limits, t, plan.scope, plan.evidence.observation.value); }
  }

  lemma ActionableSubject(limits: Limits, t: Tables, live: Live, request: Request, plan: Plan, n: nat)
    requires PlanSpec(limits, t, live, request) == Ok(plan) && t.policy.Some? && n < |plan.decisions|
    requires Decidable(InputFor(t, live, PolicyFor(t, request), request.scope, request.nowMs))
    ensures plan.evidence.intent.Some? && plan.evidence.observation.Some?
    ensures plan.decisions[n].subject in plan.evidence.intent.value.subjects
            || plan.decisions[n].subject in plan.evidence.observation.value.subjects
  {
    hide ClassifySpec, Decisions, VerdictOf, SelectObservation, SelectIntent, EvaluateFreshness, InputFor, Stream,
         PolicyDigest, DecisionFor, SubjectDrifts, SubjectDrift, UnionSubjects;
    var policy := PolicyFor(t, request);
    var input := InputFor(t, live, policy, request.scope, request.nowMs);
    DecidableReport(input);
    InputFields(t, live, policy, request.scope, request.nowMs);
    var report := ClassifySpec(input).value;
    var e := report.evidence;
    var c := ContextFor(limits, t, live, policy, request.scope, e);
    var records := Bounded(report.records, limits.maxPlanActions);
    var subjects := UnionSubjects(e.intent.value, e.observation.value);
    DecisionAt(c, records, n);
    DecisionSubject(c, records[n]);
    DriftsLength(request.scope, e.intent.value, e.observation.value, policy, e.evidence, subjects);
    DriftAt(request.scope, e.intent.value, e.observation.value, policy, e.evidence, subjects, n);
    DriftScope(request.scope, e.intent.value, e.observation.value, policy, e.evidence, subjects[n]);
  }

  lemma SubjectValid(limits: Limits, plan: Plan, s: Id)
    requires plan.evidence.intent.Some? && ValidIntent(limits, plan.evidence.intent.value)
    requires plan.evidence.observation.Some? && ValidObservation(limits, plan.evidence.observation.value)
    requires s in plan.evidence.intent.value.subjects || s in plan.evidence.observation.value.subjects
    ensures ValidIdText(s)
  {
    hide ValidIdText, ValidAttributes, IntentDigest, ObservationDigest;
  }

  lemma {:induction false} DispatchStorable(limits: Limits, t: Tables, live: Live, desired: map<Id, Subject>,
                                            decisions: seq<Decision>, nowMs: int)
    requires ValidTables(limits, t) && InU64(live.epoch) && InI64(nowMs) && limits.maxTransitions >= 1
    requires forall i :: 0 <= i < |decisions| && decisions[i].disposition == Actionable ==>
                           DecisionStorable(decisions[i])
    ensures AllStorable(limits, DispatchFrom(limits, t, live, desired, decisions, nowMs).entries)
    decreases |decisions|
  {
    hide ValidTables, FenceHolds, FindLive, Commit, NewAttempt, ActionFor, Storable, DecisionStorable;
    if decisions != [] {
      var d := decisions[0];
      DispatchStorable(limits, t, live, desired, decisions[1..], nowMs);
      if d.disposition == Actionable {
        var e := AttemptIssued(NewAttempt(t, live, d, nowMs));
        NewStorable(limits, t, live, d, nowMs);
        CommitKeepsValid(limits, t, e);
        DispatchStorable(limits, Commit(limits, t, e), live, desired, decisions[1..], nowMs);
      }
    }
  }

  lemma NewStorable(limits: Limits, t: Tables, live: Live, d: Decision, nowMs: int)
    requires ValidTables(limits, t) && InU64(live.epoch) && InI64(nowMs) && limits.maxTransitions >= 1
             && DecisionStorable(d)
    ensures Storable(limits, AttemptIssued(NewAttempt(t, live, d, nowMs)))
  {
    hide ValidIdText, ValidAuthority, ValidIntents, ValidObservations, ValidOutcomes, ValidFences, ValidPolicy,
         ValidGenerationTable, ValidAttempts;
  }

  // ---------------------------------------------------------------- every operation, every run

  lemma OpStorable(limits: Limits, t: Tables, live: Live, op: Op)
    requires ValidTables(limits, t) && InU64(live.epoch) && TypedOp(op) && limits.maxTransitions >= 1
    requires op.DispatchPlan? ==> PlanStorable(op.plan)
    ensures AllStorable(limits, EntriesOf(limits, t, live, op))
  {
    hide ValidTables, CommitIntentOp, RecordOp, CompleteOp, VerifyOp, PutFenceOp, DispatchFrom, DispatchRefusal,
         ValidIdText, ValidPolicy, CanonicalisePolicy, PolicyDigest;
    match op {
      case PutPolicy(p, same) => CanonicalStorable(limits, p);
      case CommitIntent(d) => IntentStorable(limits, t, d);
      case RecordObservation(s, at, clock) => ObservationStorable(limits, t, live, s, at, clock);
      case DispatchPlan(plan, clock) =>
        if DispatchRefusal(t, live, plan).Ok? {
          AcceptedFacts(t, live, plan);
          DispatchStorable(limits, t, live, t.intents[plan.scope].subjects, plan.decisions, clock);
        }
      case Complete(c, clock) => CompleteStorable(limits, t, live, c, clock);
      case Verify(v, clock) => VerifyStorable(limits, t, live, v, clock);
      case PutFence(f, clock) => FenceStorable(limits, t, live, f, clock);
      case ClearFence(id) => ClearStorable(limits, t, id);
    }
  }

  lemma ClearStorable(limits: Limits, t: Tables, id: Id)
    requires ValidTables(limits, t)
    ensures AllStorable(limits, ClearFenceOp(t, id).entries)
  {
    hide ValidIntents, ValidObservations, ValidOutcomes, ValidPolicy, ValidGenerationTable, ValidAttempts, ValidIdText;
  }

  lemma BootStorable(limits: Limits, t: Tables, supplied: Option<Policy>, boot: BootId, clock: int)
    requires ValidTables(limits, t) && InI64(clock) && limits.maxTransitions >= 1
             && (supplied.Some? ==> TypedPolicy(supplied.value))
    ensures var effect := Boot(limits, t, supplied, boot, clock);
            AllStorable(limits, effect.entries) && (effect.result.Ok? ==> InU64(effect.result.value.epoch))
  {
    hide ValidTables, CloseAll, AllStorable, OpenIds, InitialPolicy;
    var live := Live((t.lastEpoch + 1) % TWO64, boot);
    var close := CloseAll(limits, live, ByRestart, t.attempts, OpenIds(t.attempts), clock);
    CloseAllStorable(limits, t, live, ByRestart, OpenIds(t.attempts), clock);
    EpochStorable(limits, live.epoch);
    StorableConcat(limits, [], []);
    if t.policy.None? && InitialPolicy(limits, supplied).Ok? {
      var installed := [PolicyPut(InitialPolicy(limits, supplied).value)];
      InitialStorable(limits, supplied);
      StorableConcat(limits, installed, [EpochAdvance(live.epoch)]);
      StorableConcat(limits, installed + [EpochAdvance(live.epoch)], close);
    } else {
      StorableConcat(limits, [], [EpochAdvance(live.epoch)]);
      StorableConcat(limits, [] + [EpochAdvance(live.epoch)], close);
    }
  }

  lemma StorableConcat(limits: Limits, a: seq<Entry>, b: seq<Entry>)
    ensures AllStorable(limits, [])
    ensures AllStorable(limits, a) && AllStorable(limits, b) ==> AllStorable(limits, a + b)
  {
    hide Storable;
  }

  lemma EpochStorable(limits: Limits, epoch: nat)
    requires InU64(epoch)
    ensures AllStorable(limits, [EpochAdvance(epoch)])
  {}

  lemma InitialStorable(limits: Limits, supplied: Option<Policy>)
    requires supplied.Some? ==> TypedPolicy(supplied.value)
    ensures InitialPolicy(limits, supplied).Ok? ==>
              AllStorable(limits, [PolicyPut(InitialPolicy(limits, supplied).value)])
  {
    hide CanonicalisePolicy, ValidPolicy, TypedPolicy;
    if supplied.Some? {
      DefaultTyped();
      CanonicalStorable(limits, if supplied.value.id == [] then DEFAULT_POLICY else supplied.value);
    }
  }

  lemma DefaultTyped()
    ensures TypedPolicy(DEFAULT_POLICY)
  {
    hide ValidIdText;
    DefaultIdValid();
  }

  lemma DefaultIdValid()
    ensures ValidIdText(DEFAULT_POLICY_ID)
  {
    var s := DEFAULT_POLICY_ID;
    forall i | 0 <= i < |s| ensures IsAlphaNumeric(s[i]) || i == 7 || i == 12 {}
    forall i | 0 <= i < |s| && IsSeparator(s[i]) ensures i == 7 || i == 12 {
      assert !IsAlphaNumeric(s[i]);
    }
  }

  predicate TypedEvent(e: Event) {
    match e
    case Start(supplied, _, clock, _) => InI64(clock) && (supplied.Some? ==> TypedPolicy(supplied.value))
    case Ask(request) => OptionalId(request.scope)
    case Do(op, _, _) => TypedOp(op)
    case Compaction(_, _) => true
    case Stop => true
  }

  predicate AllAccepted(limits: Limits, entries: seq<Entry>) {
    forall i :: 0 <= i < |entries| ==> Accepted(limits, entries[i])
  }

  ghost predicate PlansStorable(plans: set<Asked>) {
    forall a :: a in plans ==> PlanStorable(a.plan)
  }

  ghost predicate Kept(limits: Limits, w: World) {
    && AllStorable(limits, w.log) && AllAccepted(limits, w.log)
    && (w.live.Some? ==> InU64(w.live.value.epoch)) && PlansStorable(w.plans)
  }

  lemma LogValid(limits: Limits, log: seq<Entry>, n: nat)
    requires AllStorable(limits, log) && n <= |log|
    ensures ValidTables(limits, CommitAll(limits, EMPTY, log[..n]))
  {
    hide ValidTables, Storable, CommitAll;
    EmptyTablesValid(limits);
    CommitAllKeepsValid(limits, EMPTY, log[..n]);
  }

  lemma WorldValid(limits: Limits, w: World)
    requires Kept(limits, w)
    ensures ValidTables(limits, TablesOf(limits, w)) && ValidTables(limits, Memory(limits, w))
  {
    hide ValidTables, AllStorable, CommitAll, PlansStorable, AllAccepted;
    assert w.log[..|w.log|] == w.log;
    LogValid(limits, w.log, |w.log|);
    if w.applied <= |w.log| { LogValid(limits, w.log, w.applied); }
  }

  lemma GrowthKept(limits: Limits, log: seq<Entry>, entries: seq<Entry>, m: nat)
    requires AllStorable(limits, log) && AllAccepted(limits, log) && AllStorable(limits, entries)
             && m <= Reach(limits, entries)
    ensures AllStorable(limits, log + entries[..m]) && AllAccepted(limits, log + entries[..m])
  {
    hide Storable, Accepted;
  }

  lemma PerformKept(limits: Limits, w: World, op: Op, entries: seq<Entry>, cut: nat, fate: Fate)
    requires Kept(limits, w) && AllStorable(limits, entries)
    ensures Kept(limits, Perform(limits, w, op, entries, cut, fate))
  {
    hide AllStorable, AllAccepted, PlansStorable, Reach, Breaches;
    var n := Smaller(cut, Reach(limits, entries));
    if w.failed || w.closed {
      FailingChangesNothing(limits, w, op, entries, cut, fate);
    } else {
      GrowthKept(limits, w.log, entries, n);
      if n < Reach(limits, entries) { GrowthKept(limits, w.log, entries, n + 1); }
    }
  }

  lemma NextKept(limits: Limits, w: World, e: Event)
    requires Kept(limits, w) && TypedEvent(e) && limits.maxTransitions >= 1
    ensures Kept(limits, Next(limits, w, e))
  {
    hide ValidTables, AllStorable, AllAccepted, PlanStorable, Boot, PlanSpec, EntriesOf, OptionalId, Perform, Held,
         TablesOf, Memory, Reach;
    WorldValid(limits, w);
    match e {
      case Start(supplied, boot, clock, cut) =>
        if w.live.None? {
          var effect := Boot(limits, TablesOf(limits, w), supplied, boot, clock);
          BootStorable(limits, TablesOf(limits, w), supplied, boot, clock);
          GrowthKept(limits, w.log, effect.entries, Smaller(cut, Reach(limits, effect.entries)));
        }
      case Ask(request) =>
        if w.live.Some? && PlanSpec(limits, Memory(limits, w), w.live.value, request).Ok? {
          BuiltPlanStorable(limits, Memory(limits, w), w.live.value, request,
                            PlanSpec(limits, Memory(limits, w), w.live.value, request).value);
        }
      case Do(op, cut, fate) =>
        if w.live.Some? && (op.DispatchPlan? ==> Held(w.plans, op.plan)) {
          if op.DispatchPlan? { HeldIsStorable(w, op.plan); }
          OpStorable(limits, Memory(limits, w), w.live.value, op);
          PerformKept(limits, w, op, EntriesOf(limits, Memory(limits, w), w.live.value, op), cut, fate);
        }
      case Compaction(_, _) =>
      case Stop =>
    }
  }

  lemma HeldIsStorable(w: World, plan: Plan)
    requires PlansStorable(w.plans) && Held(w.plans, plan)
    ensures PlanStorable(plan)
  {
    hide PlanStorable;
  }

  predicate TypedEvents(events: seq<Event>) {
    forall i :: 0 <= i < |events| ==> TypedEvent(events[i])
  }

  /** In every run, every record made durable is one replay accepts, or an overlong fence. */
  lemma {:induction false} RunIsStorable(limits: Limits, w: World, events: seq<Event>)
    requires Kept(limits, w) && TypedEvents(events) && limits.maxTransitions >= 1
    ensures Kept(limits, RunFrom(limits, w, events))
    decreases |events|
  {
    hide Next, Kept, TypedEvent;
    if events != [] {
      NextKept(limits, w, events[0]);
      RunIsStorable(limits, Next(limits, w, events[0]), events[1..]);
    }
  }

  lemma InitialKept(limits: Limits)
    ensures Kept(limits, INITIAL)
  {}

  // ---------------------------------------------------------------- the same tables, from bytes

  function RawLog(log: seq<Entry>): seq<Raw> {
    seq(|log|, i requires 0 <= i < |log| => RawOf(log[i]))
  }

  lemma FenceDetailFits(f: Fence)
    requires Fits(LineageCodec.PutFence(f, []))
    ensures Fits(f.detail)
  {
    hide LE;
  }

  lemma StoredAsCommitted(limits: Limits, t: Tables, e: Entry)
    requires Storable(limits, e) && Fits(PayloadOf(e))
    ensures ApplyRaw(limits, t, RawOf(e)) == Commit(limits, t, e)
    ensures Decodes(limits, RawOf(e)) <==> ValidEntry(limits, e)
  {
    hide Apply, ValidPolicy, ValidIntent, ValidObservation, ValidAttempt, ValidOutcome, ReadPolicy, ReadIntent,
         ReadObservation, ReadAttempt, ReadOutcome, ReadFence, ReadBytes, ReadU64, DocumentCodec.PutPolicy, PutIntent,
         PutObservation, PutAttempt, PutOutcome, LineageCodec.PutFence, PutBytes, PutU64, ValidIdText, Fits;
    if ValidEntry(limits, e) {
      DecodeOfPayload(limits, e);
    } else {
      FenceDetailFits(e.fence);
      ReadPutFence(e.fence, []);
    }
  }

  lemma {:induction false} FoldIsCommitAll(limits: Limits, t: Tables, log: seq<Entry>)
    requires AllStorable(limits, log) && AllAccepted(limits, log)
    ensures Fold(limits, t, RawLog(log)) == CommitAll(limits, t, log)
    decreases |log|
  {
    hide ApplyRaw, Commit, Storable, PayloadOf, RawOf;
    if log != [] {
      assert Accepted(limits, log[0]);
      StoredAsCommitted(limits, t, log[0]);
      assert RawLog(log)[1..] == RawLog(log[1..]);
      FoldIsCommitAll(limits, Commit(limits, t, log[0]), log[1..]);
    }
  }

  /** A run of the engine on typed arguments. */
  ghost predicate EngineRun(limits: Limits, events: seq<Event>, w: World) {
    TypedEvents(events) && limits.maxTransitions >= 1 && w == RunFrom(limits, INITIAL, events)
  }

  /** A run of the store, down to the bytes. */
  ghost predicate StoreRun(limits: Limits, events: seq<SP.Event>, r: SP.Run) {
    && SP.ValidEvents(events) && |events| < TWO64 - 2 && limits.maxJournalPayloadBytes < TWO32
    && r == SP.Execute(limits, events)
  }

  /** A process whose writes succeed holds these tables. */
  ghost predicate HealthyHolds(m: SP.Machine, t: Tables) {
    m.process.Some? && !m.process.value.writeFailed ==> m.process.value.state.tables == t
  }

  /** A reopen of these files, if it succeeds, holds these tables. */
  ghost predicate ReopensAs(limits: Limits, disk: SP.Disk, t: Tables) {
    hide SP.OpenStore;
    disk.journal.Some? && SP.OpenStore(limits, disk).Ok? ==> SP.OpenStore(limits, disk).value.tables == t
  }

  /** However the store's files were written, torn, compacted and reopened: if the durable log is the engine's, a
      reopened store holds exactly the tables of the run. */
  lemma SameLogSameTables(limits: Limits, events: seq<Event>, w: World, disk: seq<SP.Event>, r: SP.Run)
    requires EngineRun(limits, events, w) && StoreRun(limits, disk, r) && r.log == RawLog(w.log)
    ensures HealthyHolds(r.machine, TablesOf(limits, w)) && ReopensAs(limits, r.machine.disk, TablesOf(limits, w))
  {
    hide RunFrom, SP.Execute, SP.OpenStore, SP.ValidEvents, Fold, CommitAll, TypedEvents, RawLog, ValidTables,
         AllStorable, AllAccepted, SP.Openable;
    InitialKept(limits);
    RunIsStorable(limits, INITIAL, events);
    FoldIsCommitAll(limits, EMPTY, w.log);
    SP.CrashRefinement(limits, disk);
  }
}
