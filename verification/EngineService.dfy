/** The engine as it runs: an object whose operations read the tables, write records one at a time, and loop over
    attempts, decisions and observations. Every method does what its operation in `Engine` says; when the store stops
    accepting records, it has made durable a prefix of them and says so. */
module EngineService {
  import opened Bytes
  import opened Ordering
  import opened Model
  import opened DocumentCodec
  import opened LineageCodec
  import opened StoreState
  import opened Drift
  import opened Explain
  import opened Classifier
  import opened Planner
  import opened Engine

  // ---------------------------------------------------------------- walks over the tables

  lemma {:induction false} SortedIdsUnique(s: seq<nat>, ids: set<nat>)
    requires AscendingIds(s) && forall x :: x in s <==> x in ids
    ensures s == SortedIds(ids)
    decreases |s|
  {
    hide Smallest, IsSmallest, AscendingIds, SortedIds;
    if s == [] {
      assert ids == {};
    } else {
      assert s[0] in ids;
      AscendingTail(s, ids);
      SortedIdsUnique(s[1..], ids - {s[0]});
      SmallestFirst(ids);
      assert s == [s[0]] + s[1..];
    }
  }

  lemma SmallestFirst(ids: set<nat>)
    requires ids != {}
    ensures SortedIds(ids) == [Smallest(ids)] + SortedIds(ids - {Smallest(ids)})
  {
    hide Smallest, AscendingIds;
  }

  lemma AscendingTail(s: seq<nat>, ids: set<nat>)
    requires s != [] && AscendingIds(s) && (forall x :: x in s <==> x in ids) && ids != {}
    ensures s[0] == Smallest(ids) && AscendingIds(s[1..]) && forall x :: x in s[1..] <==> x in ids - {s[0]}
  {
    forall x | x in ids ensures s[0] <= x {
      var i :| 0 <= i < |s| && s[i] == x;
    }
    assert s[0] in s && IsSmallest(s[0], ids) && IsSmallest(Smallest(ids), ids);
    forall x | x in ids - {s[0]} ensures x in s[1..] {
      var i :| 0 <= i < |s| && s[i] == x;
      assert s[1..][i - 1] == x;
    }
  }

  lemma AscendingSnoc(s: seq<nat>, x: nat, all: seq<nat>, n: nat)
    requires AscendingIds(s) && AscendingIds(all) && n < |all| && all[n] == x && forall y :: y in s ==> y in all[..n]
    ensures AscendingIds(s + [x])
  {
    forall i | 0 <= i < |s| ensures s[i] < x {
      assert s[i] in all[..n];
    }
  }

  /** The open attempts, oldest identity first. */
  method CollectOpen(attempts: map<nat, Attempt>) returns (ids: seq<nat>)
    ensures ids == OpenIds(attempts)
  {
    var all := SortedIds(attempts.Keys);
    ids := [];
    var n := 0;
    while n < |all|
      invariant 0 <= n <= |all| && AscendingIds(ids)
      invariant forall x :: x in ids <==> x in all[..n] && IsLive(attempts[x])
    {
      if IsLive(attempts[all[n]]) {
        AscendingSnoc(ids, all[n], all, n);
        ids := ids + [all[n]];
      }
      n := n + 1;
    }
    SortedIdsUnique(ids, LiveIds(attempts));
  }

  /** The open attempts a fence revokes, oldest identity first. */
  method CollectVictims(attempts: map<nat, Attempt>, f: Fence) returns (ids: seq<nat>)
    ensures ids == SortedIds(Victims(attempts, f))
  {
    hide IsLive, Covers;
    var all := SortedIds(attempts.Keys);
    ids := [];
    var n := 0;
    while n < |all|
      invariant 0 <= n <= |all| && AscendingIds(ids)
      invariant forall x :: x in ids <==> x in all[..n] && Revoked(f, attempts[x])
    {
      if Revoked(f, attempts[all[n]]) {
        AscendingSnoc(ids, all[n], all, n);
        ids := ids + [all[n]];
      }
      n := n + 1;
    }
    SortedIdsUnique(ids, Victims(attempts, f));
  }

  method FenceHoldsFor(fences: map<Id, Fence>, scope: Id, subject: Id, epoch: nat) returns (holds: bool)
    ensures holds == FenceHolds(fences, scope, subject, epoch)
  {
    hide SortedKeys, Ascending;
    var ids := SortedKeys(fences.Keys);
    SortedKeysIn(fences);
    var n := 0;
    while n < |ids|
      invariant 0 <= n <= |ids|
      invariant forall m :: 0 <= m < n ==>
                              !(Covers(fences[ids[m]], scope, subject) && epoch < fences[ids[m]].fencedBelow)
    {
      var f := fences[ids[n]];
      if f.scope == scope && (f.subject == [] || f.subject == subject) && epoch < f.fencedBelow {
        assert ids[n] in fences && Covers(fences[ids[n]], scope, subject);
        return true;
      }
      n := n + 1;
    }
    forall id | id in fences ensures !(Covers(fences[id], scope, subject) && epoch < fences[id].fencedBelow) {
      assert id in ids;
    }
    return false;
  }

  /** The attempt already open for a key. */
  method FindOpen(attempts: map<nat, Attempt>, key: Digest, epoch: nat) returns (found: Option<nat>)
    ensures found == FindLive(attempts, key, epoch)
  {
    hide IsLive;
    var ids := SortedIds(attempts.Keys);
    var n := 0;
    while n < |ids|
      invariant 0 <= n <= |ids|
      invariant forall m :: 0 <= m < n ==> !Matches(attempts[ids[m]], key, epoch)
    {
      if Matches(attempts[ids[n]], key, epoch) {
        FirstIsSmallest(ids, n, Matching(attempts, key, epoch));
        return Some(ids[n]);
      }
      n := n + 1;
    }
    assert Matching(attempts, key, epoch) == {};
    return None;
  }

  lemma FirstIsSmallest(ids: seq<nat>, n: nat, keep: set<nat>)
    requires AscendingIds(ids) && n < |ids| && ids[n] in keep
    requires (forall x :: x in keep ==> x in ids) && forall m :: 0 <= m < n ==> ids[m] !in keep
    ensures Smallest(keep) == ids[n]
  {
    var s := Smallest(keep);
    var m :| 0 <= m < |ids| && ids[m] == s;
  }

  /** The oldest attempt with a key. */
  method FindByKey(attempts: map<nat, Attempt>, key: Digest) returns (found: Option<nat>)
    ensures found.None? <==> WithKey(attempts, key) == {}
    ensures found.Some? ==> WithKey(attempts, key) != {} && found.value == Smallest(WithKey(attempts, key))
  {
    var ids := SortedIds(attempts.Keys);
    var n := 0;
    while n < |ids|
      invariant 0 <= n <= |ids|
      invariant forall m :: 0 <= m < n ==> attempts[ids[m]].key != key
    {
      if attempts[ids[n]].key == key {
        assert ids[n] in WithKey(attempts, key);
        FirstIsSmallest(ids, n, WithKey(attempts, key));
        return Some(ids[n]);
      }
      n := n + 1;
    }
    assert WithKey(attempts, key) == {};
    return None;
  }

  method FindCited(stream: seq<Observation>, reporter: Id, observation: Id, generation: nat)
    returns (found: Option<Observation>)
    ensures found == FirstSame(stream, reporter, observation, generation)
  {
    var n := 0;
    while n < |stream|
      invariant 0 <= n <= |stream|
      invariant FirstSame(stream, reporter, observation, generation)
                == FirstSame(stream[n..], reporter, observation, generation)
    {
      var o := stream[n];
      if o.observation == observation && o.generation == generation && o.reporter == reporter {
        return Some(o);
      }
      n := n + 1;
    }
    return None;
  }

  predicate Sent(o: Observation, s: Submission) {
    o.reporter == s.reporter && o.observation == s.observation && o.generation == s.generation
  }

  lemma NeverSent(stream: seq<Observation>, s: Submission)
    requires forall o :: o in stream ==> !Sent(o, s)
    ensures FirstSame(stream, s.reporter, s.observation, s.generation).None?
  {}

  lemma {:induction false} FirstSent(stream: seq<Observation>, s: Submission, n: nat)
    requires n < |stream| && Sent(stream[n], s) && forall m :: 0 <= m < n ==> !Sent(stream[m], s)
    ensures FirstSame(stream, s.reporter, s.observation, s.generation) == Some(stream[n])
    decreases n
  {
    if n > 0 {
      FirstSent(stream[1..], s, n - 1);
    }
  }

  /** What the same reporter already sent: the same document, or something newer. */
  method ScanStream(stream: seq<Observation>, s: Submission) returns (same: Option<Observation>, regressed: bool)
    ensures same == FirstSame(stream, s.reporter, s.observation, s.generation)
    ensures same.None? ==>
              regressed == exists o :: o in stream && o.reporter == s.reporter && s.generation < o.generation
  {
    hide FirstSame;
    var highest, seen, n := 0, false, 0;
    while n < |stream|
      invariant 0 <= n <= |stream|
      invariant forall m :: 0 <= m < n ==> !Sent(stream[m], s)
      invariant forall m :: 0 <= m < n && stream[m].reporter == s.reporter ==> seen && stream[m].generation <= highest
      invariant seen ==> exists m :: 0 <= m < n && stream[m].reporter == s.reporter && stream[m].generation == highest
    {
      var retained := stream[n];
      if retained.reporter == s.reporter {
        if !seen || highest < retained.generation {
          highest, seen := retained.generation, true;
        }
        if retained.observation == s.observation && retained.generation == s.generation {
          FirstSent(stream, s, n);
          return Some(retained), false;
        }
      }
      n := n + 1;
    }
    forall o | o in stream ensures !Sent(o, s) && (o.reporter == s.reporter ==> seen && o.generation <= highest) {
      var m :| 0 <= m < |stream| && stream[m] == o;
    }
    NeverSent(stream, s);
    return None, seen && s.generation < highest;
  }

  // ---------------------------------------------------------------- building a plan

  /** The explanation of one decision, step by step. */
  method ExplainDecision(c: Context, record: DriftRecord, failed: set<Component>) returns (steps: seq<Step>)
    ensures steps == FirstSteps(DecisionSteps(c.policy, record, failed, ReasonOfFreshness(c.evidence.freshness)),
                                c.maxSteps)
  {
    hide AuthorityStep, DeltaSteps, FirstSteps, Room, HasPlainDelta, HasKind;
    var e := new Explanation(c.maxSteps);
    e.Add(Step(record.reason, []));
    e.Add(AuthorityStep(failed, ReasonOfFreshness(c.evidence.freshness)));
    ghost var opening := e.offered;
    AddDriftSteps(e, c.policy, record);
    assert opening == [Step(record.reason, []), AuthorityStep(failed, ReasonOfFreshness(c.evidence.freshness))];
    return e.steps;
  }

  method AddDriftSteps(e: Explanation, policy: Policy, record: DriftRecord)
    requires e.Valid()
    modifies e
    ensures e.Valid() && e.offered == old(e.offered) + DriftSteps(policy, record)
  {
    hide DeltaSteps, FirstSteps, Room, HasPlainDelta, HasKind;
    match record.drift {
      case AlreadyConverged =>
      case Missing =>
        e.Add(Step(if policy.permitApplyMissing then ACTION_ELIGIBLE else POLICY_FORBIDS_APPLY_MISSING, []));
      case Unexpected =>
        e.Add(Step(if policy.permitWithdrawUnexpected then ACTION_ELIGIBLE
                   else POLICY_FORBIDS_WITHDRAW_UNEXPECTED, []));
      case Mismatched =>
        AddDeltas(e, record.deltas);
        if !policy.permitApplyMismatched {
          e.Add(Step(POLICY_FORBIDS_APPLY_MISMATCH, []));
        } else if HasPlainDelta(record.deltas) && !HasKind(record.deltas, ObserveOnly) {
          e.Add(Step(ACTION_ELIGIBLE, []));
        }
      case Conflict => e.Add(Step(DRIFT_IS_CONFLICTED, []));
      case UnsupportedDrift => e.Add(Step(SUBJECT_KIND_UNSUPPORTED, []));
      case _ => e.Add(Step(DRIFT_IS_INDETERMINATE, []));
    }
  }

  method DecisionsOf(c: Context, records: seq<DriftRecord>, bound: nat)
    returns (decisions: seq<Decision>, truncated: bool)
    ensures decisions == Decisions(c, Bounded(records, bound))
    ensures truncated == (|records| > bound)
  {
    hide AuthorityFor, FailedComponents, AuthorityReason, IdempotencyKey, EligibilityOf, FenceHolds, FirstSteps,
         DecisionSteps;
    var authority := AuthorityFor(c.live, c.stored, c.evidence);
    decisions, truncated := [], false;
    var n := 0;
    while n < |records|
      invariant 0 <= n <= |records| && n <= bound && |decisions| == n
      invariant decisions == Decisions(c, records[..n])
    {
      if |decisions| >= bound {
        truncated := true;
        return;
      }
      var record := records[n];
      var fenced := FenceHoldsFor(c.fences, record.scope, record.subject, c.live.epoch);
      var failed := FailedComponents(authority, c.live, c.policy, c.evidence.freshness == Fresh, fenced);
      var settled := EligibilityOf(c.policy, record);
      if settled.disposition == Actionable && failed != {} {
        settled := Eligibility(NoAction, if fenced then FencedDecision else Blocked,
                               AuthorityReason(failed, ReasonOfFreshness(c.evidence.freshness)));
      }
      var key := IdempotencyKey(record.scope, record.subject, settled.action, authority,
                                DesiredOf(c.intent, record.subject),
                                ExpectedOf(c.evidence.observation, record.subject));
      var steps := ExplainDecision(c, record, failed);
      assert records[..n + 1][..n] == records[..n] && records[..n + 1][n] == record;
      decisions := decisions + [Decision(record.scope, record.subject, record.drift, settled.reason, record.evidence,
                                         authority, settled.action, settled.disposition, key, steps)];
      n := n + 1;
    }
    assert records[..|records|] == records;
  }

  method AnyWith(decisions: seq<Decision>, d: Disposition) returns (found: bool)
    ensures found == HasDisposition(decisions, d)
  {
    var n := 0;
    while n < |decisions|
      invariant 0 <= n <= |decisions|
      invariant forall m :: 0 <= m < n ==> decisions[m].disposition != d
    {
      if decisions[n].disposition == d {
        return true;
      }
      n := n + 1;
    }
    return false;
  }

  method CountWith(decisions: seq<Decision>, d: Disposition) returns (count: nat)
    ensures count == CountDisposition(decisions, d)
  {
    count := 0;
    var n := 0;
    while n < |decisions|
      invariant 0 <= n <= |decisions| && count == CountDisposition(decisions[..n], d)
    {
      assert decisions[..n + 1][..n] == decisions[..n];
      if decisions[n].disposition == d {
        count := count + 1;
      }
      n := n + 1;
    }
    assert decisions[..|decisions|] == decisions;
  }

  method JudgePlan(limits: Limits, truncated: bool, e: Evidence, decisions: seq<Decision>)
    returns (verdict: Verdict, reason: ReasonCode, steps: seq<Step>)
    ensures (verdict, reason) == VerdictOf(truncated, e, decisions)
    ensures steps == FirstSteps([ScopeStep(limits, truncated, e, decisions)], limits.maxExplanationSteps)
  {
    hide HasDisposition, CountDisposition, Digits, AsBytes, FirstSteps, Room;
    var undecided := AnyUndecided(decisions);
    var actionable := AnyWith(decisions, Actionable);
    var blocked := AnyWith(decisions, Blocked);
    var fenced := AnyWith(decisions, FencedDecision);
    var step;
    if truncated {
      verdict, reason := SearchLimitReached, PLAN_TRUNCATED;
      step := Step(PLAN_ACTION_LIMIT_REACHED, AsBytes("decisions bounded at ") + Digits(limits.maxPlanActions));
    } else if e.intent.None? {
      verdict, reason, step := IndeterminateVerdict, NO_INTENT_FOR_SCOPE, Step(NO_INTENT_FOR_SCOPE, []);
    } else if e.observation.None? {
      verdict, reason, step := IndeterminateVerdict, NO_OBSERVATION_FOR_SCOPE, Step(NO_OBSERVATION_FOR_SCOPE, []);
    } else if e.freshness != Fresh {
      verdict, reason := IndeterminateVerdict, ReasonOfFreshness(e.freshness);
      step := Step(reason, FreshnessText(e.freshness));
    } else if undecided {
      var count := CountWith(decisions, IndeterminateDecision);
      verdict, reason := IndeterminateVerdict, DRIFT_IS_INDETERMINATE;
      step := Step(reason, Digits(count) + AsBytes(" indeterminate subjects"));
    } else if actionable {
      var count := CountWith(decisions, Actionable);
      verdict, reason := ConvergenceRequired, ACTION_ELIGIBLE;
      step := Step(reason, Digits(count) + AsBytes(" actions required"));
    } else if blocked || fenced {
      verdict, reason := ProvenBlocked, DRIFT_IS_CONFLICTED;
      step := Step(reason, AsBytes("no legal plan reaches the intent under the active policy"));
    } else {
      verdict, reason := ConvergedProven, CLASSIFIED_ALREADY_CONVERGED;
      step := Step(reason, Digits(|decisions|) + AsBytes(" subjects proven equal"));
    }
    var explanation := new Explanation(limits.maxExplanationSteps);
    explanation.Add(step);
    assert explanation.offered == [step];
    return verdict, reason, explanation.steps;
  }

  method AnyUndecided(decisions: seq<Decision>) returns (found: bool)
    ensures found == Undecided(decisions)
  {
    hide HasDisposition;
    var indeterminate := AnyWith(decisions, IndeterminateDecision);
    var conflicted := AnyWith(decisions, Conflicted);
    var unsupported := AnyWith(decisions, UnsupportedDecision);
    return indeterminate || conflicted || unsupported;
  }

  method BuildPlan(limits: Limits, t: Tables, live: Live, request: Request) returns (result: Result<Plan>)
    requires t.policy.Some? ==> Searchable(PolicyFor(t, request))
    ensures result == PlanSpec(limits, t, live, request)
  {
    hide ClassifySpec, Decisions, VerdictOf, ScopeStep, FirstSteps, PolicyDigest, Searchable;
    if request.scope == [] {
      return Refused(Rejected, UNSUPPORTED_INPUT);
    }
    if t.policy.None? {
      return Refused(PreconditionFailed, NO_INTENT_FOR_SCOPE);
    }
    var policy := PolicyFor(t, request);
    var classified := ClassifyScope(InputFor(t, live, policy, request.scope, request.nowMs));
    if classified.Refused? {
      return Refused(classified.code, classified.reason);
    }
    var report := classified.value;
    var c := ContextFor(limits, t, live, policy, request.scope, report.evidence);
    var decisions, truncated := DecisionsOf(c, report.records, limits.maxPlanActions);
    var verdict, reason, steps := JudgePlan(limits, truncated, report.evidence, decisions);
    return Ok(Plan(request.scope, live, policy.id, policy.version, PolicyDigest(policy), report.evidence, verdict,
                   reason, steps, truncated, decisions));
  }

  // ---------------------------------------------------------------- the object

  const WRITE_FAILED_CODE: StatusCode := IntegrityFailure

  /** What an operation answers when the store may stop part-way. */
  function Answer<T>(effect: Effect<T>, budget: nat): Result<T> {
    if budget < |effect.entries| then Refused(WRITE_FAILED_CODE, DURABLE_WRITE_FAILED) else effect.result
  }

  lemma {:induction false} CommitOneMore(limits: Limits, t: Tables, written: seq<Entry>, e: Entry)
    ensures CommitAll(limits, t, written + [e]) == Commit(limits, CommitAll(limits, t, written), e)
    decreases |written|
  {
    hide Commit;
    if written == [] {
      var es := [] + [e];
      assert es[0] == e && es[1..] == [];
    } else {
      assert (written + [e])[1..] == written[1..] + [e];
      CommitOneMore(limits, Commit(limits, t, written[0]), written[1..], e);
    }
  }

  class ReconciliationEngine {
    const limits: Limits
    var tables: Tables
    var live: Live
    var log: seq<Entry>
    /** How many more records the store will accept before a write fails. */
    var budget: nat

    constructor (limits: Limits, tables: Tables, live: Live, budget: nat)
      ensures this.limits == limits && this.tables == tables && this.live == live && this.budget == budget && log == []
    {
      this.limits, this.tables, this.live, this.budget, log := limits, tables, live, budget, [];
    }

    /** These records, and no others, were written since the given state. */
    ghost predicate Wrote(t: Tables, before: seq<Entry>, allowance: nat, written: seq<Entry>)
      reads this`tables, this`log, this`budget
    {
      tables == CommitAll(limits, t, written) && log == before + written && allowance == budget + |written|
    }

    /** The operation wrote all its records, or as many of them as the store accepted. */
    ghost predicate Finished(t: Tables, before: seq<Entry>, allowance: nat, entries: seq<Entry>)
      reads this`tables, this`log, this`budget
    {
      Wrote(t, before, allowance, if allowance < |entries| then entries[..allowance] else entries)
    }

    /** Append and apply one record. */
    method Write(e: Entry, ghost t: Tables, ghost before: seq<Entry>, ghost allowance: nat, ghost written: seq<Entry>)
      returns (ok: bool)
      requires Wrote(t, before, allowance, written)
      modifies this`tables, this`log, this`budget
      ensures ok == (old(budget) > 0) && (!ok ==> budget == 0)
      ensures Wrote(t, before, allowance, if ok then written + [e] else written)
      ensures allowance == budget + |written| + (if ok then 1 else 0)
      ensures ok ==> tables == Commit(limits, old(tables), e)
    {
      hide Commit, CommitAll;
      if budget == 0 {
        return false;
      }
      CommitOneMore(limits, t, written, e);
      tables := Commit(limits, tables, e);
      log := log + [e];
      budget := budget - 1;
      ok := true;
    }

    /** Write at most one record. */
    method WriteOnly(entries: seq<Entry>) returns (ok: bool)
      requires |entries| <= 1
      modifies this`tables, this`log, this`budget
      ensures Finished(old(tables), old(log), old(budget), entries)
      ensures ok == (|entries| <= old(budget))
    {
      hide Commit;
      ghost var t, before, allowance := tables, log, budget;
      assert Wrote(t, before, allowance, []);
      if entries == [] {
        return true;
      }
      ok := Write(entries[0], t, before, allowance, []);
      assert [] + [entries[0]] == entries;
    }

    /** A record, and the outcome that follows it. */
    method WritePair(first: Entry, second: Entry) returns (ok: bool)
      modifies this`tables, this`log, this`budget
      ensures Finished(old(tables), old(log), old(budget), [first, second])
      ensures ok == (2 <= old(budget))
    {
      hide Commit, CommitAll;
      ghost var t, before, allowance := tables, log, budget;
      assert Wrote(t, before, allowance, []) by { NothingWritten(t); }
      ok := Write(first, t, before, allowance, []);
      assert [] + [first] == [first] && [first] + [second] == [first, second];
      if ok {
        ok := Write(second, t, before, allowance, [first]);
      }
      assert [first, second][..1] == [first] && [first, second][..0] == [];
    }

    lemma NothingWritten(t: Tables)
      ensures CommitAll(limits, t, []) == t
    {}

    lemma NothingYet()
      ensures Wrote(tables, log, budget, [])
    {}

    /** Move an attempt to a new state and, if it has ended, commit its outcome. */
    method CompleteAttempt(c: Completion, clock: int) returns (r: Result<Outcome>)
      modifies this`tables, this`log, this`budget
      ensures var effect := CompleteOp(limits, old(tables), live, c, clock);
              Finished(old(tables), old(log), old(budget), effect.entries) && r == Answer(effect, old(budget))
    {
      hide Moved, CommitAll, Commit, TransitionLegal, IsTerminal;
      ghost var effect := CompleteOp(limits, tables, live, c, clock);
      NothingWritten(tables);
      if c.attempt !in tables.attempts {
        return Refused(NotFound, ATTEMPT_UNKNOWN);
      }
      var a := tables.attempts[c.attempt];
      if a.key != c.key {
        return Refused(Rejected, ATTEMPT_UNKNOWN);
      }
      if c.epoch != live.epoch || c.boot != live.boot {
        return Refused(StaleAuthority, ATTEMPT_FENCED_BY_EPOCH_ADVANCE);
      }
      if a.epoch != live.epoch || a.boot != live.boot {
        return Refused(StaleAuthority, ATTEMPT_FENCED_BY_EPOCH_ADVANCE);
      }
      if IsTerminal(a.state) {
        return Refused(ConflictState, ATTEMPT_TERMINAL_ALREADY);
      }
      if !TransitionLegal(a.state, c.target) {
        return Refused(Rejected, ATTEMPT_TRANSITION_ILLEGAL);
      }
      var now := Stamp(c.atMs, clock);
      var reason := if c.reason != NO_REASON then c.reason else ReasonOfState(c.target);
      var moved := Moved(limits, a, Transition(a.state, c.target, live.epoch, live.boot, now, reason, NO_REASON));
      var ok;
      var outcome := OutcomeOf(moved, c.target, reason, IsTerminal(c.target) && IsInconclusive(c.target), now, 0);
      if IsTerminal(c.target) {
        assert effect.entries == [AttemptMoved(moved), OutcomeCommit(outcome)];
        ok := WritePair(AttemptMoved(moved), OutcomeCommit(outcome));
      } else {
        assert effect.entries == [AttemptMoved(moved)];
        ok := WriteOnly([AttemptMoved(moved)]);
      }
      if !ok {
        return Refused(WRITE_FAILED_CODE, DURABLE_WRITE_FAILED);
      }
      return Ok(outcome);
    }

    /** Verify an applied attempt against evidence the tables hold. */
    method VerifyAttempt(v: Verification, clock: int) returns (r: Result<Outcome>)
      modifies this`tables, this`log, this`budget
      ensures var effect := VerifyOp(limits, old(tables), live, v, clock);
              Finished(old(tables), old(log), old(budget), effect.entries) && r == Answer(effect, old(budget))
    {
      hide Moved, CommitAll, Commit, FirstSame, EvaluateFreshness, Stream;
      ghost var effect := VerifyOp(limits, tables, live, v, clock);
      NothingWritten(tables);
      var policy := ActivePolicy(tables);
      var found := FindByKey(tables.attempts, v.key);
      if found.None? {
        return Refused(NotFound, ATTEMPT_UNKNOWN);
      }
      var a := tables.attempts[found.value];
      if a.scope != v.scope || a.subject != v.subject {
        return Refused(Rejected, ATTEMPT_UNKNOWN);
      }
      if a.epoch != live.epoch || a.boot != live.boot {
        return Refused(StaleAuthority, ATTEMPT_FENCED_BY_EPOCH_ADVANCE);
      }
      if a.state != Applied {
        return Refused(PreconditionFailed, VERIFICATION_NOT_NEWER);
      }
      if policy.requireIndependentVerification && v.verifier == v.applier {
        return Refused(Rejected, VERIFICATION_NOT_INDEPENDENT);
      }
      if v.receivedEpoch != live.epoch {
        return Refused(StaleAuthority, OBSERVATION_FOREIGN_EPOCH);
      }
      if v.generation <= a.authority.observationGeneration {
        return Refused(StaleAuthority, VERIFICATION_NOT_NEWER);
      }
      var cited := FindCited(Stream(tables, v.scope), v.verifier, v.observation, v.generation);
      if cited.None? {
        return Refused(NotFound, NO_OBSERVATION_FOR_SCOPE);
      }
      var freshness := EvaluateFreshness(cited.value, policy, live.epoch, clock);
      if freshness != Fresh {
        return Refused(StaleAuthority, ReasonOfFreshness(freshness));
      }
      var now := Stamp(v.receivedMs, clock);
      var next := if v.confirmsEffect then Verified else Failed;
      var reason := if v.confirmsEffect then ATTEMPT_VERIFIED else ATTEMPT_FAILED;
      var moved := Moved(limits, a, Transition(a.state, next, live.epoch, live.boot, now, reason,
                                               if v.confirmsEffect then ATTEMPT_VERIFIED else VERIFICATION_NOT_NEWER));
      var outcome := OutcomeOf(moved, next, reason, !v.confirmsEffect, now, v.generation);
      assert effect.entries == [AttemptMoved(moved), OutcomeCommit(outcome)];
      var ok := WritePair(AttemptMoved(moved), OutcomeCommit(outcome));
      if !ok {
        return Refused(WRITE_FAILED_CODE, DURABLE_WRITE_FAILED);
      }
      return Ok(outcome);
    }

    /** End a list of attempts, one after the other. */
    method CloseEach(closing: Closing, attempts: map<nat, Attempt>, ids: seq<nat>, nowMs: int, ghost t: Tables,
                     ghost before: seq<Entry>, ghost allowance: nat, ghost written: seq<Entry>) returns (ok: bool)
      requires (forall id :: id in ids ==> id in attempts) && Wrote(t, before, allowance, written)
               && allowance == budget + |written|
      modifies this`tables, this`log, this`budget
      ensures var entries := written + CloseAll(limits, live, closing, attempts, ids, nowMs);
              Finished(t, before, allowance, entries) && ok == (|entries| <= allowance)
    {
      hide CloseEntries, Commit, CommitAll, CloseAll, Wrote;
      CloseNone(closing, attempts, nowMs);
      assert ids[0..] == ids;
      ghost var entries := written + CloseAll(limits, live, closing, attempts, ids, nowMs);
      ghost var done := written;
      var n := 0;
      while n < |ids|
        invariant 0 <= n <= |ids|
        invariant Wrote(t, before, allowance, done) && allowance == budget + |done|
        invariant entries == done + CloseAll(limits, live, closing, attempts, ids[n..], nowMs)
      {
        ghost var rest := CloseAll(limits, live, closing, attempts, ids[n + 1..], nowMs);
        CloseFirst(closing, attempts, ids[n..], nowMs);
        assert ids[n..][1..] == ids[n + 1..];
        var pair := CloseEntries(limits, live, closing, attempts[ids[n]], nowMs);
        assert entries == (done + [pair[0]] + [pair[1]]) + rest;
        ok := Write(pair[0], t, before, allowance, done);
        if !ok {
          assert entries[..|done|] == done;
          return;
        }
        ok := Write(pair[1], t, before, allowance, done + [pair[0]]);
        if !ok {
          assert entries[..|done + [pair[0]]|] == done + [pair[0]];
          return;
        }
        done := done + [pair[0]] + [pair[1]];
        n := n + 1;
      }
      assert ids[n..] == [] && done + [] == done;
      ok := true;
    }

    lemma CloseNone(closing: Closing, attempts: map<nat, Attempt>, nowMs: int)
      ensures CloseAll(limits, live, closing, attempts, [], nowMs) == []
    {}

    lemma CloseFirst(closing: Closing, attempts: map<nat, Attempt>, ids: seq<nat>, nowMs: int)
      requires ids != [] && forall id :: id in ids ==> id in attempts
      ensures |CloseEntries(limits, live, closing, attempts[ids[0]], nowMs)| == 2
      ensures CloseAll(limits, live, closing, attempts, ids, nowMs)
           == CloseEntries(limits, live, closing, attempts[ids[0]], nowMs)
              + CloseAll(limits, live, closing, attempts, ids[1..], nowMs)
    {}

    /** Install a fence and end every open attempt it revokes. */
    method InstallFence(fence: Fence, clock: int) returns (r: Result<bool>)
      modifies this`tables, this`log, this`budget
      ensures var effect := PutFenceOp(limits, old(tables), live, fence, clock);
              Finished(old(tables), old(log), old(budget), effect.entries) && r == Answer(effect, old(budget))
    {
      hide CloseAll, Commit, CommitAll, ValidFence, Victims;
      ghost var effect := PutFenceOp(limits, tables, live, fence, clock);
      ghost var t, before, allowance := tables, log, budget;
      NothingWritten(tables);
      assert Wrote(t, before, allowance, []);
      if fence.id == [] || fence.scope == [] {
        return Refused(Rejected, UNSUPPORTED_INPUT);
      }
      if fence.fencedBelow == 0 {
        return Refused(Rejected, FENCE_EPOCH_NOT_NEWER);
      }
      var now := Stamp(fence.createdMs, clock);
      var entry := fence.(createdMs := now);
      var attempts := tables.attempts;
      var ok := Write(FencePut(entry), t, before, allowance, []);
      assert [] + [FencePut(entry)] == [FencePut(entry)];
      if !ok {
        assert effect.entries[..0] == [];
        return Refused(WRITE_FAILED_CODE, DURABLE_WRITE_FAILED);
      }
      if !ValidFence(entry) {
        return Refused(IntegrityFailure, JOURNAL_ENUM_INVALID);
      }
      var victims := CollectVictims(attempts, entry);
      VictimsKnown(attempts, entry);
      ok := CloseEach(ByFence, attempts, victims, now, t, before, allowance, [FencePut(entry)]);
      if !ok {
        return Refused(WRITE_FAILED_CODE, DURABLE_WRITE_FAILED);
      }
      return Ok(true);
    }

    /** Boot over the tables a reopened store holds: a policy if there is none, the next epoch, and an end to every
        attempt the previous incarnation left open. */
    method Restart(supplied: Option<Policy>, boot: BootId, clock: int) returns (r: Result<Live>)
      modifies this
      ensures var effect := Boot(limits, old(tables), supplied, boot, clock);
              Finished(old(tables), old(log), old(budget), effect.entries) && r == Answer(effect, old(budget))
      ensures r.Ok? ==> live == r.value
    {
      hide CloseAll, Commit, CommitAll, InitialPolicy, OpenIds, Wrote;
      ghost var effect := Boot(limits, tables, supplied, boot, clock);
      ghost var t, before, allowance := tables, log, budget;
      ghost var written: seq<Entry> := [];
      NothingYet();
      var attempts, previous := tables.attempts, tables.lastEpoch;
      var ok;
      if tables.policy.None? {
        var initial := InitialPolicy(limits, supplied);
        if initial.Refused? {
          return Refused(initial.code, initial.reason);
        }
        assert effect.entries[..0] == [] && [] + [PolicyPut(initial.value)] == [PolicyPut(initial.value)];
        ok := Write(PolicyPut(initial.value), t, before, allowance, written);
        if !ok {
          return Refused(WRITE_FAILED_CODE, DURABLE_WRITE_FAILED);
        }
        written := [PolicyPut(initial.value)];
      }
      var next := (previous + 1) % TWO64;
      if next <= previous {
        assert written + [] == written;
        return Refused(ConflictState, FENCE_EPOCH_NOT_NEWER);
      }
      ghost var ended := CloseAll(limits, Live(next, boot), ByRestart, attempts, OpenIds(attempts), clock);
      assert effect.entries == written + [EpochAdvance(next)] + ended;
      ok := BeginEpoch(Live(next, boot), attempts, clock, t, before, allowance, written);
      if !ok {
        return Refused(WRITE_FAILED_CODE, DURABLE_WRITE_FAILED);
      }
      return Ok(live);
    }

    /** Advance the epoch, and end what the previous one left open. */
    method BeginEpoch(next: Live, attempts: map<nat, Attempt>, clock: int, ghost t: Tables, ghost before: seq<Entry>,
                      ghost allowance: nat, ghost written: seq<Entry>) returns (ok: bool)
      requires Wrote(t, before, allowance, written) && allowance == budget + |written|
      modifies this
      ensures var ended := CloseAll(limits, next, ByRestart, attempts, OpenIds(attempts), clock);
              var entries := written + [EpochAdvance(next.epoch)] + ended;
              Finished(t, before, allowance, entries) && ok == (|entries| <= allowance)
      ensures ok ==> live == next
    {
      hide CloseAll, Commit, CommitAll, OpenIds, Wrote;
      ghost var ended := CloseAll(limits, next, ByRestart, attempts, OpenIds(attempts), clock);
      ghost var entries := written + [EpochAdvance(next.epoch)] + ended;
      assert entries[..|written|] == written;
      ok := Write(EpochAdvance(next.epoch), t, before, allowance, written);
      if !ok {
        return;
      }
      live := next;
      var open := CollectOpen(attempts);
      ok := CloseEach(ByRestart, attempts, open, clock, t, before, allowance, written + [EpochAdvance(next.epoch)]);
    }

    /** Stamp a submission and append it to its scope's stream, unless it repeats, contradicts or precedes what the
        same reporter already sent. */
    method RecordObservation(s: Submission, stampMs: int, clock: int) returns (r: Result<Recorded>)
      modifies this`tables, this`log, this`budget
      ensures var effect := RecordOp(limits, old(tables), live, s, stampMs, clock);
              Finished(old(tables), old(log), old(budget), effect.entries) && r == Answer(effect, old(budget))
    {
      hide Commit, CommitAll, ValidateDocument, ObservationDigest, Stream, FirstSame;
      NothingWritten(tables);
      var valid := ValidateDocument(limits, s.observation != [] && s.scope != [] && s.reporter != [], s.subjects);
      if valid.Refused? {
        return Refused(valid.code, valid.reason);
      }
      var document := Stamped(s, live.epoch, Stamp(stampMs, clock));
      var stream := Stream(tables, s.scope);
      var same, regressed := ScanStream(stream, s);
      if same.Some? {
        if same.value.digest == document.digest {
          return Ok(Recorded(same.value, true));
        }
        return Refused(ConflictState, CONFLICTING_REPUBLISHERS);
      }
      if regressed {
        return Refused(Rejected, OBSERVATION_GENERATION_REGRESSED);
      }
      var ok := WriteOnly([ObservationCommit(document)]);
      if !ok {
        return Refused(WRITE_FAILED_CODE, DURABLE_WRITE_FAILED);
      }
      return Ok(Recorded(document, false));
    }

    /** Hand out the plan's actions: skip what is fenced, reuse what is open, issue the rest. */
    method DispatchPlan(plan: Plan, clock: int) returns (r: Result<Dispatch>)
      modifies this`tables, this`log, this`budget
      ensures var effect := DispatchOp(limits, old(tables), live, plan, clock);
              Finished(old(tables), old(log), old(budget), effect.entries) && r == Answer(effect, old(budget))
    {
      hide Commit, CommitAll, DispatchFrom, FenceHolds, FindLive, NewAttempt, ActionFor, DispatchRefusal, Wrote;
      ghost var effect := DispatchOp(limits, tables, live, plan, clock);
      ghost var t, before, allowance := tables, log, budget;
      NothingYet();
      var refusal := DispatchRefusal(tables, live, plan);
      if refusal.Refused? {
        return Refused(refusal.code, refusal.reason);
      }
      RefusalNamesIntent(plan);
      var desired := tables.intents[plan.scope].subjects;
      ghost var issue := DispatchFrom(limits, t, live, desired, plan.decisions, clock);
      ghost var written: seq<Entry> := [];
      var actions, alreadyIssued, fencedCount := [], 0, 0;
      var n := 0;
      assert plan.decisions[0..] == plan.decisions;
      assert Joined(issue, actions, written, alreadyIssued, fencedCount, issue);
      while n < |plan.decisions|
        invariant 0 <= n <= |plan.decisions|
        invariant Wrote(t, before, allowance, written) && allowance == budget + |written|
        invariant Joined(issue, actions, written, alreadyIssued, fencedCount,
                         DispatchFrom(limits, tables, live, desired, plan.decisions[n..], clock))
      {
        var d := plan.decisions[n];
        DispatchUnfolds(tables, desired, plan.decisions[n..], clock);
        assert plan.decisions[n..][1..] == plan.decisions[n + 1..];
        n := n + 1;
        if d.disposition != Actionable {
          continue;
        }
        var fenced := FenceHoldsFor(tables.fences, d.scope, d.subject, live.epoch);
        if fenced {
          fencedCount := fencedCount + 1;
          continue;
        }
        var open := FindOpen(tables.attempts, d.key, live.epoch);
        if open.Some? {
          actions := actions + [ActionFor(tables.attempts[open.value], desired)];
          alreadyIssued := alreadyIssued + 1;
          continue;
        }
        var a := NewAttempt(tables, live, d, clock);
        ghost var rest := DispatchFrom(limits, Commit(limits, tables, AttemptIssued(a)), live, desired,
                                       plan.decisions[n..], clock);
        assert issue.entries == (written + [AttemptIssued(a)]) + rest.entries;
        var ok := Write(AttemptIssued(a), t, before, allowance, written);
        if !ok {
          assert issue.entries[..|written|] == written;
          return Refused(WRITE_FAILED_CODE, DURABLE_WRITE_FAILED);
        }
        actions, written := actions + [ActionFor(a, desired)], written + [AttemptIssued(a)];
      }
      DispatchEnds(tables, desired, clock);
      assert plan.decisions[n..] == [] && written + [] == written && actions + [] == actions;
      return Ok(Dispatch(actions, alreadyIssued, fencedCount));
    }

    /** What has been done so far and what remains add up to the whole. */
    static predicate Joined(whole: Issue, actions: seq<Action>, written: seq<Entry>, alreadyIssued: nat, fenced: nat,
                            rest: Issue) {
      && whole.actions == actions + rest.actions && whole.entries == written + rest.entries
      && whole.alreadyIssued == alreadyIssued + rest.alreadyIssued && whole.fenced == fenced + rest.fenced
    }

    lemma RefusalNamesIntent(plan: Plan)
      requires DispatchRefusal(tables, live, plan).Ok?
      ensures plan.scope in tables.intents
    {}

    lemma DispatchEnds(t: Tables, desired: map<Id, Subject>, clock: int)
      ensures DispatchFrom(limits, t, live, desired, [], clock) == Issue([], [], 0, 0)
    {}

    lemma DispatchUnfolds(t: Tables, desired: map<Id, Subject>, decisions: seq<Decision>, clock: int)
      requires decisions != []
      ensures var d, issue := decisions[0], DispatchFrom(limits, t, live, desired, decisions, clock);
              var skipped := DispatchFrom(limits, t, live, desired, decisions[1..], clock);
              if d.disposition != Actionable then issue == skipped
              else if FenceHolds(t.fences, d.scope, d.subject, live.epoch) then
                issue == skipped.(fenced := skipped.fenced + 1)
              else if FindLive(t.attempts, d.key, live.epoch).Some? then
                var a := t.attempts[FindLive(t.attempts, d.key, live.epoch).value];
                issue == skipped.(actions := [ActionFor(a, desired)] + skipped.actions,
                                  alreadyIssued := skipped.alreadyIssued + 1)
              else
                var a := NewAttempt(t, live, d, clock);
                var u := Commit(limits, t, AttemptIssued(a));
                var rest := DispatchFrom(limits, u, live, desired, decisions[1..], clock);
                issue == rest.(actions := [ActionFor(a, desired)] + rest.actions,
                               entries := [AttemptIssued(a)] + rest.entries)
    {
      hide FenceHolds, FindLive, NewAttempt, ActionFor, Commit;
    }
  }
}
