/** Drift classification: which evidence counts, and what each subject's drift is.

    The specification looks every subject and attribute up by key. The methods below it walk the
    ordered tables side by side, as the runtime does, and are proved to produce exactly that. */
module Drift {
  import opened Bytes
  import opened Ordering
  import opened Model

  datatype DriftClass =
    | AlreadyConverged | Missing | Unexpected | Mismatched | StaleObservation | StaleIntent | Conflict
    | UnknownDrift | UnsupportedDrift

  datatype DeltaKind = ValueMismatch | OnlyInIntent | OnlyInObservation | NotComparable | Unmanaged | ObserveOnly

  datatype Delta = Delta(key: Id, kind: DeltaKind, intended: AttributeValue, observed: AttributeValue)

  datatype DriftRecord = DriftRecord(
    scope: Id, subject: Id, drift: DriftClass, reason: ReasonCode, deltas: seq<Delta>, evidence: EvidenceClass)

  datatype Freshness = NoEvidence | Fresh | Expired | ForeignEpoch | ClockRegression

  function ReasonOfFreshness(f: Freshness): ReasonCode {
    match f
    case Fresh => NO_REASON
    case Expired => OBSERVATION_EXPIRED
    case ForeignEpoch => OBSERVATION_FOREIGN_EPOCH
    case ClockRegression => OBSERVATION_CLOCK_REGRESSION
    case NoEvidence => NO_OBSERVATION_FOR_SCOPE
  }

  function EvaluateFreshness(o: Observation, policy: Policy, liveEpoch: nat, nowMs: int): Freshness {
    if policy.requireCurrentEpoch && o.receivedEpoch != liveEpoch then ForeignEpoch
    else if policy.maxAgeMs > 0 && nowMs < o.receivedMs then ClockRegression
    else if policy.maxAgeMs > 0 && nowMs - o.receivedMs > policy.maxAgeMs then Expired
    else Fresh
  }

  // ---------------------------------------------------------------- evidence selection

  datatype Selection<T> = Selection(selected: Option<T>, conflicted: bool, reason: ReasonCode)

  /** Generation, then receipt time, then reporter. */
  predicate KeyLess(a: Observation, b: Observation) {
    if a.generation != b.generation then a.generation < b.generation
    else if a.receivedMs != b.receivedMs then a.receivedMs < b.receivedMs
    else Less(a.reporter, b.reporter)
  }

  /** The first candidate that no later candidate exceeds. */
  function Newest(best: Observation, rest: seq<Observation>): (r: Observation)
    ensures r == best || r in rest
    decreases |rest|
  {
    if rest == [] then best else Newest(if KeyLess(best, rest[0]) then rest[0] else best, rest[1..])
  }

  predicate Divergent(a: Observation, b: Observation) {
    a.generation == b.generation && a.digest != b.digest
  }

  function SelectObservation(candidates: seq<Observation>): Selection<Observation> {
    if candidates == [] then Selection(None, false, NO_OBSERVATION_FOR_SCOPE)
    else
      var best := Newest(candidates[0], candidates[1..]);
      if exists d :: d in candidates && Divergent(d, best) then Selection(None, true, CONFLICTING_REPUBLISHERS)
      else Selection(Some(best), false, NO_REASON)
  }

  function Latest(best: Intent, rest: seq<Intent>): (r: Intent)
    ensures r == best || r in rest
    decreases |rest|
  {
    if rest == [] then best else Latest(if best.generation < rest[0].generation then rest[0] else best, rest[1..])
  }

  predicate DivergentIntent(a: Intent, b: Intent) {
    a.generation == b.generation && a.digest != b.digest
  }

  function SelectIntent(candidates: seq<Intent>): Selection<Intent> {
    if candidates == [] then Selection(None, false, NO_INTENT_FOR_SCOPE)
    else
      var best := Latest(candidates[0], candidates[1..]);
      if exists d :: d in candidates && DivergentIntent(d, best) then Selection(None, true, CONFLICTING_REPUBLISHERS)
      else Selection(Some(best), false, NO_REASON)
  }

  lemma KeyLessTransitive(a: Observation, b: Observation, c: Observation)
    requires KeyLess(a, b) && KeyLess(b, c)
    ensures KeyLess(a, c)
  {
    if a.generation == b.generation == c.generation && a.receivedMs == b.receivedMs == c.receivedMs {
      LessTransitive(a.reporter, b.reporter, c.reporter);
    }
  }

  lemma KeyLessIrreflexive(a: Observation)
    ensures !KeyLess(a, a)
  {
    LessIrreflexive(a.reporter);
  }

  /** What is selected is exceeded by no candidate. */
  lemma {:induction false} NewestIsMaximal(best: Observation, rest: seq<Observation>)
    ensures !KeyLess(Newest(best, rest), best)
    ensures forall d :: d in rest ==> !KeyLess(Newest(best, rest), d)
    decreases |rest|
  {
    if rest == [] {
      KeyLessIrreflexive(best);
    } else {
      var next := if KeyLess(best, rest[0]) then rest[0] else best;
      var r := Newest(best, rest);
      NewestIsMaximal(next, rest[1..]);
      if KeyLess(best, rest[0]) {
        if KeyLess(r, best) { KeyLessTransitive(r, best, rest[0]); }
      } else {
        if KeyLess(r, rest[0]) { NotBelow(r, best, rest[0]); }
      }
      assert forall d :: d in rest ==> d == rest[0] || d in rest[1..];
    }
  }

  lemma NotBelow(r: Observation, best: Observation, d: Observation)
    requires KeyLess(r, d) && !KeyLess(best, d)
    ensures KeyLess(r, best)
  {
    if r.generation == best.generation == d.generation && r.receivedMs == best.receivedMs == d.receivedMs {
      LessTotal(best.reporter, d.reporter);
      if Less(d.reporter, best.reporter) { LessTransitive(r.reporter, d.reporter, best.reporter); }
    }
  }

  lemma SelectedIsMaximal(candidates: seq<Observation>)
    requires candidates != []
    ensures var best := Newest(candidates[0], candidates[1..]);
            best in candidates && forall d :: d in candidates ==> !KeyLess(best, d)
  {
    NewestIsMaximal(candidates[0], candidates[1..]);
    assert forall d :: d in candidates ==> d == candidates[0] || d in candidates[1..];
  }

  lemma HeadIn(s: seq<Observation>)
    requires s != []
    ensures s[0] in s
  {}

  /** Nothing in the order of selection tells these two apart. */
  predicate Tied(a: Observation, b: Observation) {
    a.generation == b.generation && a.receivedMs == b.receivedMs && a.reporter == b.reporter && a.digest == b.digest
  }

  /** Two candidate lists with the same members select the same evidence, unless two different candidates tie in
      generation, receipt time, reporter and digest. */
  lemma SelectionIgnoresOrder(a: seq<Observation>, b: seq<Observation>)
    requires forall d :: d in a <==> d in b
    requires forall d, e :: d in a && e in a && Tied(d, e) ==> d == e
    ensures SelectObservation(a) == SelectObservation(b)
  {
    if a == [] {
      if b != [] { HeadIn(b); }
    } else {
      assert a[0] in b;
      SelectedIsMaximal(a);
      SelectedIsMaximal(b);
      var x, y := Newest(a[0], a[1..]), Newest(b[0], b[1..]);
      assert !KeyLess(x, y) && !KeyLess(y, x);
      LessTotal(x.reporter, y.reporter);
      if x.digest != y.digest {
        assert Divergent(y, x) && Divergent(x, y);
      }
    }
  }

  /** And only then: between two different candidates that tie, the first one listed is selected. */
  lemma TiesFollowOrder(d: Observation, e: Observation)
    requires Tied(d, e)
    ensures SelectObservation([d, e]) == Selection(Some(d), false, NO_REASON)
  {
    LessIrreflexive(d.reporter);
    assert [d, e][1..] == [e] && [e][1..] == [];
    assert Newest(d, [e]) == Newest(d, []) == d;
  }

  // ---------------------------------------------------------------- the specification, attribute by attribute

  /** One subject's two sides. */
  datatype Pair = Pair(intended: Subject, observed: Subject)

  predicate IsUnmanaged(policy: Policy, k: Id) { k in policy.unmanaged }
  predicate IsObserveOnly(policy: Policy, k: Id) { k in policy.observeOnly }

  function ValueOr(m: Attributes, k: Id): AttributeValue {
    if k in m then m[k] else Absent
  }

  /** The difference an attribute key contributes, if any. */
  function DeltaAt(policy: Policy, p: Pair, k: Id): seq<Delta> {
    var left, right := p.intended.attributes, p.observed.attributes;
    if IsUnmanaged(policy, k) then [Delta(k, Unmanaged, ValueOr(left, k), ValueOr(right, k))]
    else if k !in right then
      if p.observed.completeAttributes then [Delta(k, OnlyInIntent, ValueOr(left, k), Absent)] else []
    else if k !in left then
      if p.intended.completeAttributes then [Delta(k, OnlyInObservation, Absent, ValueOr(right, k))] else []
    else if !IsValidValue(left[k]) || !IsValidValue(right[k]) then []
    else if !Comparable(left[k], right[k]) then [Delta(k, NotComparable, left[k], right[k])]
    else if left[k] != right[k] then [Delta(k, if IsObserveOnly(policy, k) then ObserveOnly
                                            else ValueMismatch, left[k], right[k])]
    else []
  }

  /** The observation did not cover the attribute, or the intent did not. */
  predicate GapAt(policy: Policy, p: Pair, k: Id) {
    !IsUnmanaged(policy, k)
    && ((k !in p.observed.attributes && !p.observed.completeAttributes)
        || (k in p.observed.attributes && k !in p.intended.attributes && !p.intended.completeAttributes))
  }

  predicate UnsupportedAt(policy: Policy, p: Pair, k: Id) {
    !IsUnmanaged(policy, k) && k in p.intended.attributes && k in p.observed.attributes
    && (!IsValidValue(p.intended.attributes[k]) || !IsValidValue(p.observed.attributes[k]))
  }

  function DeltasOf(policy: Policy, p: Pair, keys: seq<Id>): seq<Delta> {
    if keys == [] then [] else DeltasOf(policy, p, keys[..|keys| - 1]) + DeltaAt(policy, p, keys[|keys| - 1])
  }

  function KeysOf(p: Pair): seq<Id> {
    SortedKeys(p.intended.attributes.Keys + p.observed.attributes.Keys)
  }

  datatype Walk = Walk(deltas: seq<Delta>, coverageGap: bool, unsupported: bool, comparisons: nat)

  function WalkOver(policy: Policy, p: Pair, keys: seq<Id>): Walk {
    Walk(DeltasOf(policy, p, keys), exists k :: k in keys && GapAt(policy, p, k),
         exists k :: k in keys && UnsupportedAt(policy, p, k), |keys|)
  }

  function WalkSpec(policy: Policy, p: Pair): Walk {
    WalkOver(policy, p, KeysOf(p))
  }

  predicate HasActionable(deltas: seq<Delta>) {
    exists i :: 0 <= i < |deltas| && deltas[i].kind != Unmanaged
  }

  predicate HasKind(deltas: seq<Delta>, kind: DeltaKind) {
    exists i :: 0 <= i < |deltas| && deltas[i].kind == kind
  }

  /** The strongest difference names the reason. */
  function MismatchReason(deltas: seq<Delta>): ReasonCode {
    if HasKind(deltas, NotComparable) then CLASSIFIED_ATTRIBUTE_NOT_COMPARABLE
    else if HasKind(deltas, ValueMismatch) || HasKind(deltas, ObserveOnly) then CLASSIFIED_ATTRIBUTE_MISMATCH
    else if HasKind(deltas, OnlyInIntent) then CLASSIFIED_ATTRIBUTE_MISSING
    else if HasKind(deltas, OnlyInObservation) then CLASSIFIED_ATTRIBUTE_UNEXPECTED
    else CLASSIFIED_ATTRIBUTE_MISMATCH
  }

  // ---------------------------------------------------------------- the specification, subject by subject

  predicate AbsenceAllowed(policy: Policy, o: Observation) {
    !policy.requireCoverageForAbsence || (o.complete && o.authoritativeAbsence)
  }

  /** Every managed attribute of one side, as differences of the given kind. */
  function SideDeltas(policy: Policy, kind: DeltaKind, m: Attributes, keys: seq<Id>): seq<Delta>
    requires forall k :: k in keys ==> k in m
  {
    if keys == [] then []
    else
      var k := keys[|keys| - 1];
      SideDeltas(policy, kind, m, keys[..|keys| - 1]) +
      (if IsUnmanaged(policy, k) then []
       else if kind == OnlyInIntent then [Delta(k, kind, m[k], Absent)]
       else [Delta(k, kind, Absent, m[k])])
  }

  lemma SortedKeysIn<V>(m: map<Id, V>)
    ensures forall k :: k in SortedKeys(m.Keys) <==> k in m
  {
    assert forall k :: k in SortedKeys(m.Keys) <==> k in Elements(SortedKeys(m.Keys));
  }

  /** What a fresh observation and the current intent say about one subject. */
  function SubjectDrift(scope: Id, intent: Intent, o: Observation, policy: Policy, evidence: EvidenceClass, subject: Id)
    : DriftRecord
    requires subject in intent.subjects || subject in o.subjects
  {
    if subject !in o.subjects then
      var declared := intent.subjects[subject].attributes;
      SortedKeysIn(declared);
      if AbsenceAllowed(policy, o) then
        DriftRecord(scope, subject, Missing, CLASSIFIED_SUBJECT_MISSING,
                    SideDeltas(policy, OnlyInIntent, declared, SortedKeys(declared.Keys)), evidence)
      else
        DriftRecord(scope, subject, UnknownDrift,
                    if !o.complete then OBSERVATION_COVERAGE_INCOMPLETE
                    else OBSERVATION_CANNOT_ASSERT_ABSENCE, [], evidence)
    else if subject !in intent.subjects then
      var seen := o.subjects[subject].attributes;
      SortedKeysIn(seen);
      if intent.complete then
        DriftRecord(scope, subject, Unexpected, CLASSIFIED_SUBJECT_UNEXPECTED,
                    SideDeltas(policy, OnlyInObservation, seen, SortedKeys(seen.Keys)), evidence)
      else
        DriftRecord(scope, subject, UnknownDrift, INTENT_COVERAGE_INCOMPLETE, [], evidence)
    else
      PairDrift(scope, Pair(intent.subjects[subject], o.subjects[subject]), policy, evidence, subject)
  }

  function PairDrift(scope: Id, p: Pair, policy: Policy, evidence: EvidenceClass, subject: Id): DriftRecord {
    var walk := WalkSpec(policy, p);
    if walk.unsupported then
      DriftRecord(scope, subject, UnsupportedDrift, SUBJECT_KIND_UNSUPPORTED, walk.deltas, evidence)
    else if walk.coverageGap then
      DriftRecord(scope, subject, UnknownDrift, ATTRIBUTE_COVERAGE_INCOMPLETE, walk.deltas, evidence)
    else if !HasActionable(walk.deltas) then
      DriftRecord(scope, subject, AlreadyConverged, CLASSIFIED_ALREADY_CONVERGED, walk.deltas, evidence)
    else
      DriftRecord(scope, subject, Mismatched, MismatchReason(walk.deltas), walk.deltas, evidence)
  }

  predicate Named(intent: Intent, o: Observation, subjects: seq<Id>) {
    forall s :: s in subjects ==> s in intent.subjects || s in o.subjects
  }

  function SubjectDrifts(scope: Id, intent: Intent, o: Observation, policy: Policy, evidence: EvidenceClass,
                         subjects: seq<Id>)
    : seq<DriftRecord>
    requires Named(intent, o, subjects)
  {
    if subjects == [] then []
    else SubjectDrifts(scope, intent, o, policy, evidence, subjects[..|subjects| - 1])
         + [SubjectDrift(scope, intent, o, policy, evidence, subjects[|subjects| - 1])]
  }

  /** How many attribute keys a subject costs. */
  function Comparisons(intent: Intent, o: Observation, subjects: seq<Id>): nat {
    if subjects == [] then 0
    else
      var s := subjects[|subjects| - 1];
      Comparisons(intent, o, subjects[..|subjects| - 1])
      + (if s in intent.subjects && s in o.subjects then |KeysOf(Pair(intent.subjects[s], o.subjects[s]))| else 0)
  }

  // ---------------------------------------------------------------- the specification of a whole scope

  datatype Evidence = Evidence(
    intent: Option<Intent>, observation: Option<Observation>, freshness: Freshness, evidence: EvidenceClass)

  datatype Report = Report(scope: Id, evidence: Evidence, records: seq<DriftRecord>, visits: nat, comparisons: nat)

  datatype Input = Input(
    scope: Id, intents: seq<Intent>, observations: seq<Observation>, committed: Option<nat>, policy: Policy,
    liveEpoch: nat, nowMs: int)

  function IntentSubjects(docs: seq<Intent>): set<Id> {
    if docs == [] then {} else docs[0].subjects.Keys + IntentSubjects(docs[1..])
  }

  function ObservationSubjects(docs: seq<Observation>): set<Id> {
    if docs == [] then {} else docs[0].subjects.Keys + ObservationSubjects(docs[1..])
  }

  function EvidenceOf(input: Input): Evidence {
    var intent, observation := SelectIntent(input.intents).selected, SelectObservation(input.observations).selected;
    Evidence(intent, observation,
             if observation.Some? then EvaluateFreshness(observation.value, input.policy, input.liveEpoch, input.nowMs)
             else NoEvidence,
             if observation.Some? && observation.value.evidence != UnknownEvidence then observation.value.evidence
             else if intent.Some? then intent.value.evidence else UnknownEvidence)
  }

  /** The same verdict for every subject. */
  function Uniform(scope: Id, drift: DriftClass, reason: ReasonCode, evidence: EvidenceClass,
                   subjects: seq<Id>): seq<DriftRecord> {
    if subjects == [] then []
    else Uniform(scope, drift, reason, evidence, subjects[..|subjects| - 1])
         + [DriftRecord(scope, subjects[|subjects| - 1], drift, reason, [], evidence)]
  }

  /** The evidence is fresh and undisputed: classification goes subject by subject. */
  predicate Decidable(input: Input) {
    var e := EvidenceOf(input);
    && !SelectIntent(input.intents).conflicted && !SelectObservation(input.observations).conflicted
    && e.intent.Some? && e.observation.Some? && e.freshness == Fresh
    && (input.committed.Some? ==> e.intent.value.generation >= input.committed.value)
  }

  function UnionSubjects(intent: Intent, o: Observation): seq<Id> {
    SortedKeys(intent.subjects.Keys + o.subjects.Keys)
  }

  lemma UnionNamed(intent: Intent, o: Observation)
    ensures Named(intent, o, UnionSubjects(intent, o))
  {
    var subjects := UnionSubjects(intent, o);
    assert forall s :: s in subjects <==> s in Elements(subjects);
  }

  function ClassifySpec(input: Input): Result<Report> {
    if input.scope == [] then Refused(Rejected, UNSUPPORTED_INPUT)
    else if exists d :: d in input.intents && d.scope != input.scope then Refused(Rejected, UNSUPPORTED_INPUT)
    else if exists d :: d in input.observations && d.scope != input.scope then Refused(Rejected, UNSUPPORTED_INPUT)
    else
      var e := EvidenceOf(input);
      var intents, observations := SelectIntent(input.intents), SelectObservation(input.observations);
      var all := SortedKeys(IntentSubjects(input.intents) + ObservationSubjects(input.observations));
      var regressed := input.committed.Some? && e.intent.Some? && e.intent.value.generation < input.committed.value;
      if intents.conflicted || observations.conflicted then
        Ok(Report(input.scope, e,
                  Uniform(input.scope, Conflict, if intents.conflicted then intents.reason else observations.reason,
                          e.evidence, all), 0, 0))
      else if regressed || (e.intent.None? && input.committed.Some?) then
        Ok(Report(input.scope, e, Uniform(input.scope, StaleIntent,
                                          if regressed then INTENT_GENERATION_REGRESSED
                                          else NO_INTENT_FOR_SCOPE, e.evidence, all), 0, 0))
      else if e.intent.None? then
        Ok(Report(input.scope, e, Uniform(input.scope, UnknownDrift, NO_INTENT_FOR_SCOPE, e.evidence, all), 0, 0))
      else if e.observation.None? then
        Ok(Report(input.scope, e, Uniform(input.scope, UnknownDrift, NO_OBSERVATION_FOR_SCOPE, e.evidence,
                                          SortedKeys(e.intent.value.subjects.Keys)), 0, 0))
      else if e.freshness != Fresh then
        Ok(Report(input.scope, e,
                  Uniform(input.scope, StaleObservation, ReasonOfFreshness(e.freshness), e.evidence, all), 0, 0))
      else
        var intent, o := e.intent.value, e.observation.value;
        var subjects := UnionSubjects(intent, o);
        UnionNamed(intent, o);
        Ok(Report(input.scope, e, SubjectDrifts(input.scope, intent, o, input.policy, e.evidence, subjects),
                     |subjects|, Comparisons(intent, o, subjects)))
  }
}
