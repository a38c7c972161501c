/** The classifier as it runs: cursors over ordered tables, and lists that grow.
    Every method produces exactly what the lookup specification in `Drift` says. */
module Classifier {
  import opened Bytes
  import opened Ordering
  import opened Model
  import opened Drift

  /** The lists a binary search may be run on. */
  predicate Searchable(policy: Policy) {
    Ascending(policy.unmanaged) && Ascending(policy.observeOnly)
  }

  /** The binary search behind the policy's attribute lists. */
  method BinarySearch(list: seq<Id>, key: Id) returns (found: bool)
    requires Ascending(list)
    ensures found == (key in list)
  {
    var first, count := 0, |list|;
    while count > 0
      invariant 0 <= first <= first + count <= |list|
      invariant forall n :: 0 <= n < first ==> Less(list[n], key)
      invariant forall n :: first + count <= n < |list| ==> !Less(list[n], key)
      decreases count
    {
      var step := count / 2;
      var at := first + step;
      if Less(list[at], key) {
        forall n | 0 <= n < at ensures Less(list[n], key) { LessTransitive(list[n], list[at], key); }
        first, count := at + 1, count - (step + 1);
      } else {
        forall n | at < n < |list| ensures !Less(list[n], key) {
          if Less(list[n], key) { LessTransitive(list[at], list[n], key); }
        }
        count := step;
      }
    }
    LessIrreflexive(key);
    found := first < |list| && !Less(key, list[first]);
    if found {
      LessTotal(key, list[first]);
    } else {
      forall n | 0 <= n < |list| ensures list[n] != key {
        if first < n { LessTransitive(key, list[first], list[n]); }
      }
    }
  }

  // ---------------------------------------------------------------- evidence selection

  method SelectCurrentIntent(candidates: seq<Intent>) returns (selection: Selection<Intent>)
    ensures selection == SelectIntent(candidates)
  {
    if candidates == [] {
      return Selection(None, false, NO_INTENT_FOR_SCOPE);
    }
    var best, n := candidates[0], 1;
    while n < |candidates|
      invariant 1 <= n <= |candidates|
      invariant Latest(best, candidates[n..]) == Latest(candidates[0], candidates[1..])
    {
      if best.generation < candidates[n].generation {
        best := candidates[n];
      }
      n := n + 1;
    }
    n := 0;
    while n < |candidates|
      invariant 0 <= n <= |candidates|
      invariant forall m :: 0 <= m < n ==> !DivergentIntent(candidates[m], best)
    {
      if candidates[n].generation == best.generation && candidates[n].digest != best.digest {
        assert candidates[n] in candidates && DivergentIntent(candidates[n], best);
        return Selection(None, true, CONFLICTING_REPUBLISHERS);
      }
      n := n + 1;
    }
    return Selection(Some(best), false, NO_REASON);
  }

  method SelectCurrentObservation(candidates: seq<Observation>) returns (selection: Selection<Observation>)
    ensures selection == SelectObservation(candidates)
  {
    if candidates == [] {
      return Selection(None, false, NO_OBSERVATION_FOR_SCOPE);
    }
    var best, n := candidates[0], 1;
    while n < |candidates|
      invariant 1 <= n <= |candidates|
      invariant Newest(best, candidates[n..]) == Newest(candidates[0], candidates[1..])
    {
      if KeyLess(best, candidates[n]) {
        best := candidates[n];
      }
      n := n + 1;
    }
    n := 0;
    while n < |candidates|
      invariant 0 <= n <= |candidates|
      invariant forall m :: 0 <= m < n ==> !Divergent(candidates[m], best)
    {
      if candidates[n].generation == best.generation && candidates[n].digest != best.digest {
        assert candidates[n] in candidates && Divergent(candidates[n], best);
        return Selection(None, true, CONFLICTING_REPUBLISHERS);
      }
      n := n + 1;
    }
    return Selection(Some(best), false, NO_REASON);
  }

  // ---------------------------------------------------------------- one subject

  /** What visiting one more key adds to a walk. */
  ghost function Visited(policy: Policy, p: Pair, k: Id, before: Walk): Walk {
    Walk(before.deltas + DeltaAt(policy, p, k), before.coverageGap || GapAt(policy, p, k),
         before.unsupported || UnsupportedAt(policy, p, k), before.comparisons + 1)
  }

  lemma WalkStep(policy: Policy, p: Pair, done: seq<Id>, k: Id)
    ensures WalkOver(policy, p, done + [k]) == Visited(policy, p, k, WalkOver(policy, p, done))
  {
    hide DeltaAt, GapAt, UnsupportedAt;
    var next := done + [k];
    assert next[..|next| - 1] == done && next[|next| - 1] == k;
    assert forall x :: x in next <==> x in done || x == k;
  }

  lemma WalkStart(policy: Policy, p: Pair)
    ensures WalkOver(policy, p, []) == Walk([], false, false, 0)
  {}

  /** An attribute that only the intent names. */
  method VisitIntended(policy: Policy, p: Pair, k: Id, before: Walk) returns (walk: Walk)
    requires Searchable(policy) && k in p.intended.attributes && k !in p.observed.attributes
    ensures walk == Visited(policy, p, k, before)
  {
    var desired := p.intended.attributes[k];
    walk := before.(comparisons := before.comparisons + 1);
    var unmanaged := BinarySearch(policy.unmanaged, k);
    if unmanaged {
      walk := walk.(deltas := walk.deltas + [Delta(k, Unmanaged, desired, Absent)]);
    } else if p.observed.completeAttributes {
      walk := walk.(deltas := walk.deltas + [Delta(k, OnlyInIntent, desired, Absent)]);
    } else {
      walk := walk.(coverageGap := true);
    }
  }

  /** An attribute that only the observation names. */
  method VisitObserved(policy: Policy, p: Pair, k: Id, before: Walk) returns (walk: Walk)
    requires Searchable(policy) && k !in p.intended.attributes && k in p.observed.attributes
    ensures walk == Visited(policy, p, k, before)
  {
    var observed := p.observed.attributes[k];
    walk := before.(comparisons := before.comparisons + 1);
    var unmanaged := BinarySearch(policy.unmanaged, k);
    if unmanaged {
      walk := walk.(deltas := walk.deltas + [Delta(k, Unmanaged, Absent, observed)]);
    } else if p.intended.completeAttributes {
      walk := walk.(deltas := walk.deltas + [Delta(k, OnlyInObservation, Absent, observed)]);
    } else {
      walk := walk.(coverageGap := true);
    }
  }

  /** An attribute that both name. */
  method VisitBoth(policy: Policy, p: Pair, k: Id, before: Walk) returns (walk: Walk)
    requires Searchable(policy) && k in p.intended.attributes && k in p.observed.attributes
    ensures walk == Visited(policy, p, k, before)
  {
    hide IsValidValue, Comparable;
    var desired, observed := p.intended.attributes[k], p.observed.attributes[k];
    walk := before.(comparisons := before.comparisons + 1);
    var unmanaged := BinarySearch(policy.unmanaged, k);
    if unmanaged {
      walk := walk.(deltas := walk.deltas + [Delta(k, Unmanaged, desired, observed)]);
    } else if !IsValidValue(desired) || !IsValidValue(observed) {
      walk := walk.(unsupported := true);
    } else if !Comparable(desired, observed) {
      walk := walk.(deltas := walk.deltas + [Delta(k, NotComparable, desired, observed)]);
    } else if desired != observed {
      var observeOnly := BinarySearch(policy.observeOnly, k);
      var kind := if observeOnly then ObserveOnly else ValueMismatch;
      walk := walk.(deltas := walk.deltas + [Delta(k, kind, desired, observed)]);
    }
  }

  method WalkAttributes(desired: Attributes, observed: Attributes, intentComplete: bool, observationComplete: bool,
                        policy: Policy) returns (walk: Walk)
    requires Searchable(policy)
    ensures walk == WalkSpec(policy, Pair(Subject(intentComplete, desired), Subject(observationComplete, observed)))
  {
    hide Merging, Elements, Ascending, SortedKeys, Less, WalkOver, Visited, Searchable;
    var p := Pair(Subject(intentComplete, desired), Subject(observationComplete, observed));
    var left, right := SortedKeys(desired.Keys), SortedKeys(observed.Keys);
    SortedKeysIn(desired);
    SortedKeysIn(observed);
    MergeStart(left, right);
    WalkStart(policy, p);
    var i, j := 0, 0;
    ghost var done: seq<Id> := [];
    walk := Walk([], false, false, 0);
    while i < |left| || j < |right|
      invariant 0 <= i <= |left| && 0 <= j <= |right|
      invariant Merging(left, right, i, j, done)
      invariant walk == WalkOver(policy, p, done)
      decreases |left| - i + |right| - j
    {
      if j == |right| || (i < |left| && Less(left[i], right[j])) {
        var k := left[i];
        MergeLeft(left, right, i, j, done);
        WalkStep(policy, p, done, k);
        walk := VisitIntended(policy, p, k, walk);
        i, done := i + 1, done + [k];
      } else if i == |left| || Less(right[j], left[i]) {
        var k := right[j];
        MergeRight(left, right, i, j, done);
        WalkStep(policy, p, done, k);
        walk := VisitObserved(policy, p, k, walk);
        j, done := j + 1, done + [k];
      } else {
        var k := left[i];
        MergeBoth(left, right, i, j, done);
        WalkStep(policy, p, done, k);
        walk := VisitBoth(policy, p, k, walk);
        i, j, done := i + 1, j + 1, done + [k];
      }
    }
    MergeComplete(left, right, done);
  }

  function Rank(kind: DeltaKind): nat {
    match kind
    case NotComparable => 0
    case ValueMismatch => 1
    case ObserveOnly => 2
    case OnlyInIntent => 3
    case OnlyInObservation => 4
    case Unmanaged => 99
  }

  function ReasonOfRank(rank: nat): ReasonCode {
    if rank == 0 then CLASSIFIED_ATTRIBUTE_NOT_COMPARABLE
    else if rank == 3 then CLASSIFIED_ATTRIBUTE_MISSING
    else if rank == 4 then CLASSIFIED_ATTRIBUTE_UNEXPECTED
    else CLASSIFIED_ATTRIBUTE_MISMATCH
  }

  method RankedReason(deltas: seq<Delta>) returns (reason: ReasonCode)
    ensures reason == MismatchReason(deltas)
  {
    reason := CLASSIFIED_ATTRIBUTE_MISMATCH;
    var best, n := 99, 0;
    while n < |deltas|
      invariant 0 <= n <= |deltas|
      invariant forall m :: 0 <= m < n ==> best <= Rank(deltas[m].kind)
      invariant best == 99 || exists m :: 0 <= m < n && Rank(deltas[m].kind) == best
      invariant reason == ReasonOfRank(best)
    {
      var rank := Rank(deltas[n].kind);
      if rank < best {
        best, reason := rank, ReasonOfRank(rank);
      }
      n := n + 1;
    }
  }

  method AnyActionable(deltas: seq<Delta>) returns (found: bool)
    ensures found == HasActionable(deltas)
  {
    var n := 0;
    while n < |deltas|
      invariant 0 <= n <= |deltas|
      invariant forall m :: 0 <= m < n ==> deltas[m].kind == Unmanaged
    {
      if deltas[n].kind != Unmanaged {
        return true;
      }
      n := n + 1;
    }
    return false;
  }

  /** The managed attributes of a subject that only one side has. */
  method ManagedAttributes(policy: Policy, kind: DeltaKind, m: Attributes) returns (deltas: seq<Delta>)
    requires Searchable(policy)
    ensures (forall k :: k in SortedKeys(m.Keys) ==> k in m)
    ensures deltas == SideDeltas(policy, kind, m, SortedKeys(m.Keys))
  {
    hide Elements, Ascending, SortedKeys, Less;
    SortedKeysIn(m);
    var keys := SortedKeys(m.Keys);
    deltas := [];
    var n := 0;
    while n < |keys|
      invariant 0 <= n <= |keys|
      invariant deltas == SideDeltas(policy, kind, m, keys[..n])
    {
      var k := keys[n];
      assert keys[..n + 1][..n] == keys[..n] && keys[..n + 1][n] == k;
      var unmanaged := BinarySearch(policy.unmanaged, k);
      if !unmanaged {
        deltas := deltas + [Delta(k, kind, if kind == OnlyInIntent then m[k] else Absent,
                                  if kind == OnlyInIntent then Absent else m[k])];
      }
      n := n + 1;
    }
    assert keys[..|keys|] == keys;
  }

  /** A subject the observation does not name. */
  method ClassifyUnseen(scope: Id, intent: Intent, o: Observation, policy: Policy, evidence: EvidenceClass, subject: Id)
    returns (record: DriftRecord)
    requires Searchable(policy)
    requires subject in intent.subjects && subject !in o.subjects
    ensures record == SubjectDrift(scope, intent, o, policy, evidence, subject)
  {
    var absenceAllowed := !policy.requireCoverageForAbsence || (o.complete && o.authoritativeAbsence);
    if absenceAllowed {
      var deltas := ManagedAttributes(policy, OnlyInIntent, intent.subjects[subject].attributes);
      record := DriftRecord(scope, subject, Missing, CLASSIFIED_SUBJECT_MISSING, deltas, evidence);
    } else {
      var reason := if !o.complete then OBSERVATION_COVERAGE_INCOMPLETE else OBSERVATION_CANNOT_ASSERT_ABSENCE;
      record := DriftRecord(scope, subject, UnknownDrift, reason, [], evidence);
    }
  }

  /** A subject the intent does not name. */
  method ClassifyUndeclared(scope: Id, intent: Intent, o: Observation, policy: Policy, evidence: EvidenceClass,
                            subject: Id)
    returns (record: DriftRecord)
    requires Searchable(policy)
    requires subject !in intent.subjects && subject in o.subjects
    ensures record == SubjectDrift(scope, intent, o, policy, evidence, subject)
  {
    if intent.complete {
      var deltas := ManagedAttributes(policy, OnlyInObservation, o.subjects[subject].attributes);
      record := DriftRecord(scope, subject, Unexpected, CLASSIFIED_SUBJECT_UNEXPECTED, deltas, evidence);
    } else {
      record := DriftRecord(scope, subject, UnknownDrift, INTENT_COVERAGE_INCOMPLETE, [], evidence);
    }
  }

  /** A subject both documents name. */
  method ClassifyPair(scope: Id, intent: Intent, o: Observation, policy: Policy, evidence: EvidenceClass, subject: Id)
    returns (record: DriftRecord, comparisons: nat)
    requires Searchable(policy)
    requires subject in intent.subjects && subject in o.subjects
    ensures record == SubjectDrift(scope, intent, o, policy, evidence, subject)
    ensures comparisons == |KeysOf(Pair(intent.subjects[subject], o.subjects[subject]))|
  {
    var p := Pair(intent.subjects[subject], o.subjects[subject]);
    var walk := WalkAttributes(p.intended.attributes, p.observed.attributes, p.intended.completeAttributes,
                               p.observed.completeAttributes, policy);
    assert p == Pair(Subject(p.intended.completeAttributes, p.intended.attributes),
                     Subject(p.observed.completeAttributes, p.observed.attributes));
    comparisons := walk.comparisons;
    if walk.unsupported {
      record := DriftRecord(scope, subject, UnsupportedDrift, SUBJECT_KIND_UNSUPPORTED, walk.deltas, evidence);
    } else if walk.coverageGap {
      record := DriftRecord(scope, subject, UnknownDrift, ATTRIBUTE_COVERAGE_INCOMPLETE, walk.deltas, evidence);
    } else {
      var actionable := AnyActionable(walk.deltas);
      if !actionable {
        record := DriftRecord(scope, subject, AlreadyConverged, CLASSIFIED_ALREADY_CONVERGED, walk.deltas, evidence);
      } else {
        var reason := RankedReason(walk.deltas);
        record := DriftRecord(scope, subject, Mismatched, reason, walk.deltas, evidence);
      }
    }
  }

  // ---------------------------------------------------------------- a whole scope

  lemma DriftsStep(scope: Id, intent: Intent, o: Observation, policy: Policy, evidence: EvidenceClass, done: seq<Id>,
                   k: Id)
    requires Named(intent, o, done)
    requires k in intent.subjects || k in o.subjects
    ensures Named(intent, o, done + [k])
    ensures SubjectDrifts(scope, intent, o, policy, evidence, done + [k])
         == SubjectDrifts(scope, intent, o, policy, evidence, done)
            + [SubjectDrift(scope, intent, o, policy, evidence, k)]
    ensures var both := k in intent.subjects && k in o.subjects;
            var visited := if both then |KeysOf(Pair(intent.subjects[k], o.subjects[k]))| else 0;
            Comparisons(intent, o, done + [k]) == Comparisons(intent, o, done) + visited
  {
    var next := done + [k];
    assert next[..|next| - 1] == done && next[|next| - 1] == k;
  }

  lemma DriftsStart(scope: Id, intent: Intent, o: Observation, policy: Policy, evidence: EvidenceClass)
    ensures Named(intent, o, []) && SubjectDrifts(scope, intent, o, policy, evidence, []) == []
    ensures Comparisons(intent, o, []) == 0
  {}

  lemma MergedIsUnion(intent: Intent, o: Observation, done: seq<Id>)
    requires var left, right := SortedKeys(intent.subjects.Keys), SortedKeys(o.subjects.Keys);
             Merging(left, right, |left|, |right|, done)
    ensures done == UnionSubjects(intent, o)
  {
    MergeComplete(SortedKeys(intent.subjects.Keys), SortedKeys(o.subjects.Keys), done);
  }

  /** The walk over both subject tables. */
  method MergeSubjects(scope: Id, intent: Intent, o: Observation, policy: Policy, evidence: EvidenceClass)
    returns (records: seq<DriftRecord>, visits: nat, comparisons: nat)
    requires Searchable(policy)
    ensures Named(intent, o, UnionSubjects(intent, o))
    ensures records == SubjectDrifts(scope, intent, o, policy, evidence, UnionSubjects(intent, o))
    ensures visits == |UnionSubjects(intent, o)|
    ensures comparisons == Comparisons(intent, o, UnionSubjects(intent, o))
  {
    hide Named, UnionSubjects, SubjectDrift, KeysOf, Merging, Elements, Ascending, SortedKeys, Less, SubjectDrifts,
         Comparisons;
    var left, right := SortedKeys(intent.subjects.Keys), SortedKeys(o.subjects.Keys);
    SortedKeysIn(intent.subjects);
    SortedKeysIn(o.subjects);
    MergeStart(left, right);
    DriftsStart(scope, intent, o, policy, evidence);
    records, visits, comparisons := [], 0, 0;
    var i, j := 0, 0;
    ghost var done: seq<Id> := [];
    while i < |left| || j < |right|
      invariant 0 <= i <= |left| && 0 <= j <= |right|
      invariant Merging(left, right, i, j, done)
      invariant Named(intent, o, done)
      invariant records == SubjectDrifts(scope, intent, o, policy, evidence, done)
      invariant visits == |done|
      invariant comparisons == Comparisons(intent, o, done)
      decreases |left| - i + |right| - j
    {
      visits := visits + 1;
      if j == |right| || (i < |left| && Less(left[i], right[j])) {
        var k := left[i];
        MergeLeft(left, right, i, j, done);
        DriftsStep(scope, intent, o, policy, evidence, done, k);
        var record := ClassifyUnseen(scope, intent, o, policy, evidence, k);
        records := records + [record];
        i, done := i + 1, done + [k];
      } else if i == |left| || Less(right[j], left[i]) {
        var k := right[j];
        MergeRight(left, right, i, j, done);
        DriftsStep(scope, intent, o, policy, evidence, done, k);
        var record := ClassifyUndeclared(scope, intent, o, policy, evidence, k);
        records := records + [record];
        j, done := j + 1, done + [k];
      } else {
        var k := left[i];
        MergeBoth(left, right, i, j, done);
        DriftsStep(scope, intent, o, policy, evidence, done, k);
        var record, cost := ClassifyPair(scope, intent, o, policy, evidence, k);
        records := records + [record];
        comparisons := comparisons + cost;
        i, j, done := i + 1, j + 1, done + [k];
      }
    }
    MergedIsUnion(intent, o, done);
  }

  method UniformRecords(scope: Id, drift: DriftClass, reason: ReasonCode, evidence: EvidenceClass, subjects: seq<Id>)
    returns (records: seq<DriftRecord>)
    ensures records == Uniform(scope, drift, reason, evidence, subjects)
  {
    records := [];
    var n := 0;
    while n < |subjects|
      invariant 0 <= n <= |subjects|
      invariant records == Uniform(scope, drift, reason, evidence, subjects[..n])
    {
      assert subjects[..n + 1][..n] == subjects[..n];
      records := records + [DriftRecord(scope, subjects[n], drift, reason, [], evidence)];
      n := n + 1;
    }
    assert subjects[..|subjects|] == subjects;
  }

  method CollectSubjects(intents: seq<Intent>, observations: seq<Observation>) returns (subjects: set<Id>)
    ensures subjects == IntentSubjects(intents) + ObservationSubjects(observations)
  {
    subjects := {};
    var n := 0;
    while n < |intents|
      invariant 0 <= n <= |intents|
      invariant subjects + IntentSubjects(intents[n..]) == IntentSubjects(intents)
    {
      subjects := subjects + intents[n].subjects.Keys;
      n := n + 1;
    }
    n := 0;
    while n < |observations|
      invariant 0 <= n <= |observations|
      invariant subjects + ObservationSubjects(observations[n..])
                == IntentSubjects(intents) + ObservationSubjects(observations)
    {
      subjects := subjects + observations[n].subjects.Keys;
      n := n + 1;
    }
  }

  method SameScope(input: Input) returns (same: bool)
    ensures same == ((forall d :: d in input.intents ==> d.scope == input.scope)
                     && (forall d :: d in input.observations ==> d.scope == input.scope))
  {
    var n := 0;
    while n < |input.intents|
      invariant 0 <= n <= |input.intents|
      invariant forall m :: 0 <= m < n ==> input.intents[m].scope == input.scope
    {
      if input.intents[n].scope != input.scope {
        return false;
      }
      n := n + 1;
    }
    n := 0;
    while n < |input.observations|
      invariant 0 <= n <= |input.observations|
      invariant forall m :: 0 <= m < n ==> input.observations[m].scope == input.scope
    {
      if input.observations[n].scope != input.scope {
        return false;
      }
      n := n + 1;
    }
    return true;
  }

  method ClassifyScope(input: Input) returns (result: Result<Report>)
    requires Searchable(input.policy)
    ensures result == ClassifySpec(input)
  {
    hide SubjectDrifts, Comparisons, Uniform, IntentSubjects, ObservationSubjects, SelectIntent, SelectObservation,
         EvaluateFreshness, UnionSubjects;
    if input.scope == [] {
      return Refused(Rejected, UNSUPPORTED_INPUT);
    }
    var same := SameScope(input);
    if !same {
      return Refused(Rejected, UNSUPPORTED_INPUT);
    }
    var intents := SelectCurrentIntent(input.intents);
    var observations := SelectCurrentObservation(input.observations);
    var intent, observation := intents.selected, observations.selected;
    var freshness := NoEvidence;
    if observation.Some? {
      freshness := EvaluateFreshness(observation.value, input.policy, input.liveEpoch, input.nowMs);
    }
    var regressed := input.committed.Some? && intent.Some? && intent.value.generation < input.committed.value;
    var class_ := UnknownEvidence;
    if intent.Some? {
      class_ := intent.value.evidence;
    }
    if observation.Some? && observation.value.evidence != UnknownEvidence {
      class_ := observation.value.evidence;
    }
    var evidence := Evidence(intent, observation, freshness, class_);
    assert evidence == Drift.EvidenceOf(input);
    var subjects := CollectSubjects(input.intents, input.observations);
    var all := SortedKeys(subjects);

    if intents.conflicted || observations.conflicted {
      var records := UniformRecords(input.scope, Conflict,
                                    if intents.conflicted then intents.reason else observations.reason, class_, all);
      return Ok(Report(input.scope, evidence, records, 0, 0));
    }
    if regressed || (intent.None? && input.committed.Some?) {
      var records := UniformRecords(input.scope, StaleIntent,
                                    if regressed then INTENT_GENERATION_REGRESSED
                                    else NO_INTENT_FOR_SCOPE, class_, all);
      return Ok(Report(input.scope, evidence, records, 0, 0));
    }
    if intent.None? {
      var records := UniformRecords(input.scope, UnknownDrift, NO_INTENT_FOR_SCOPE, class_, all);
      return Ok(Report(input.scope, evidence, records, 0, 0));
    }
    if observation.None? {
      var records := UniformRecords(input.scope, UnknownDrift, NO_OBSERVATION_FOR_SCOPE, class_,
                                    SortedKeys(intent.value.subjects.Keys));
      return Ok(Report(input.scope, evidence, records, 0, 0));
    }
    if freshness != Fresh {
      var records := UniformRecords(input.scope, StaleObservation, ReasonOfFreshness(freshness), class_, all);
      return Ok(Report(input.scope, evidence, records, 0, 0));
    }
    var records, visits, comparisons := MergeSubjects(input.scope, intent.value, observation.value, input.policy,
                                                      class_);
    return Ok(Report(input.scope, evidence, records, visits, comparisons));
  }
}
