/** Dispatching, completing, verifying and recording: what each promises its callers, and where it falls short. */
module LineageTheorems {
  import opened Bytes
  import opened Ordering
  import opened Model
  import opened DocumentCodec
  import opened LineageCodec
  import opened StoreState
  import opened Drift
  import opened Planner
  import opened Replan
  import opened Engine
  import opened EngineRuns
  import opened EngineSafety

  // ---------------------------------------------------------------- dispatching again

  /** Issuing attempts leaves every other attempt, and the rest of the tables, as they were. */
  lemma {:induction false} IssuesKeep(limits: Limits, t: Tables, h: History, entries: seq<Entry>)
    requires Linked(t, h) && Admits(limits, t, h, entries) && OnlyIssues(entries)
    ensures var t', h' := CommitAll(limits, t, entries), TrackAll(h, entries);
            && Linked(t', h') && SameSetting(t, t')
            && (forall id :: id in h.lineage ==> id in h'.lineage && h'.lineage[id] == h.lineage[id])
    decreases |entries|
  {
    hide Linked, Commit;
    if entries != [] {
      var e := entries[0];
      CommitLinked(limits, t, h, e);
      IssueKeepsSetting(limits, t, e.issued);
      IssuesKeep(limits, Commit(limits, t, e), Track(h, e), entries[1..]);
    }
  }

  lemma IssueKeepsSetting(limits: Limits, t: Tables, a: Attempt)
    ensures SameSetting(t, Commit(limits, t, AttemptIssued(a)))
  {
    hide TrimmedAttempts;
  }

  lemma OpenIsUnique(t: Tables, h: History, key: Digest, epoch: nat, id: nat)
    requires Linked(t, h) && id in t.attempts && Matches(t.attempts[id], key, epoch)
    ensures FindLive(t.attempts, key, epoch) == Some(id)
  {
    hide SoundLineage, SoundOutcomes, StreamsLinked, IsTerminal;
    var found := FindLive(t.attempts, key, epoch);
    assert found.Some?;
  }

  lemma StillOpen(t: Tables, h: History, t': Tables, h': History, id: nat)
    requires Linked(t', h') && AttemptsLinked(t.attempts, h.lineage)
    requires forall x :: x in h.lineage ==> x in h'.lineage && h'.lineage[x] == h.lineage[x]
    requires id in t.attempts && IsLive(t.attempts[id])
    ensures id in t'.attempts && t'.attempts[id] == t.attempts[id]
  {
    hide SoundLineage, SoundOutcomes, StreamsLinked, OneLivePerKey, IsTerminal;
  }

  /** The second dispatch meets the attempt the first one found or opened. */
  lemma {:induction false} DispatchFinds(limits: Limits, t: Tables, h: History, live: Live, desired: map<Id, Subject>,
                                         decisions: seq<Decision>, nowMs: int, later: int, t': Tables, h': History)
    requires Linked(t, h) && Serving(t, h, live) && AllBound(decisions, live, h.seen)
    requires t.nextAttempt + |DispatchFrom(limits, t, live, desired, decisions, nowMs).entries| < TWO64
    requires t' == CommitAll(limits, t, DispatchFrom(limits, t, live, desired, decisions, nowMs).entries)
    requires h' == TrackAll(h, DispatchFrom(limits, t, live, desired, decisions, nowMs).entries)
    ensures var first, second := DispatchFrom(limits, t, live, desired, decisions, nowMs),
                                 DispatchFrom(limits, t', live, desired, decisions, later);
            second == Issue(first.actions, [], |first.actions|, first.fenced)
    decreases |decisions|
  {
    hide Linked, Serving, Commit, CommitAll, TrackAll, Track, FenceHolds, FindLive, NewAttempt, ActionFor, Admits,
         Steady, BoundTo;
    var entries := DispatchFrom(limits, t, live, desired, decisions, nowMs).entries;
    DispatchProper(limits, t, h, live, desired, decisions, nowMs);
    DispatchOnlyIssues(limits, t, live, desired, decisions, nowMs);
    IssuesKeep(limits, t, h, entries);
    LinkedFacts(t, h);
    if decisions != [] {
      var d, rest := decisions[0], decisions[1..];
      if d.disposition != Actionable || FenceHolds(t.fences, d.scope, d.subject, live.epoch) {
        DispatchFinds(limits, t, h, live, desired, rest, nowMs, later, t', h');
      } else if FindLive(t.attempts, d.key, live.epoch).Some? {
        var id := FindLive(t.attempts, d.key, live.epoch).value;
        StillOpen(t, h, t', h', id);
        OpenIsUnique(t', h', d.key, live.epoch, id);
        DispatchFinds(limits, t, h, live, desired, rest, nowMs, later, t', h');
      } else {
        var a := NewAttempt(t, live, d, nowMs);
        NewIsFound(limits, t, h, live, desired, decisions, nowMs, later, t', h', a);
      }
    }
  }

  lemma LinkedFacts(t: Tables, h: History)
    requires Linked(t, h)
    ensures AttemptsLinked(t.attempts, h.lineage)
  {}

  lemma NewIsFound(limits: Limits, t: Tables, h: History, live: Live, desired: map<Id, Subject>,
                   decisions: seq<Decision>, nowMs: int, later: int, t': Tables, h': History, a: Attempt)
    requires Linked(t, h) && Serving(t, h, live) && AllBound(decisions, live, h.seen) && decisions != []
    requires t.nextAttempt + |DispatchFrom(limits, t, live, desired, decisions, nowMs).entries| < TWO64
    requires t' == CommitAll(limits, t, DispatchFrom(limits, t, live, desired, decisions, nowMs).entries)
    requires h' == TrackAll(h, DispatchFrom(limits, t, live, desired, decisions, nowMs).entries)
    requires Linked(t', h') && SameSetting(t, t')
    requires decisions[0].disposition == Actionable
    requires !FenceHolds(t.fences, decisions[0].scope, decisions[0].subject, live.epoch)
    requires FindLive(t.attempts, decisions[0].key, live.epoch).None? && a == NewAttempt(t, live, decisions[0], nowMs)
    ensures var first, second := DispatchFrom(limits, t, live, desired, decisions, nowMs),
                                 DispatchFrom(limits, t', live, desired, decisions, later);
            second == Issue(first.actions, [], |first.actions|, first.fenced)
    decreases |decisions|, 0
  {
    hide Linked, Serving, Commit, FenceHolds, FindLive, NewAttempt, ActionFor, Admits, Steady, Legal, SameSetting,
         BoundTo;
    var d, rest := decisions[0], decisions[1..];
    var e := AttemptIssued(a);
    assert BoundTo(d, live, h.seen);
    NewIsLegal(t, h, live, d, nowMs);
    ServingFacts(t, h, live);
    var t1, h1 := Commit(limits, t, e), Track(h, e);
    CommitLinked(limits, t, h, e);
    IssueServes(limits, t, h, live, a);
    CommitCounts(limits, t, h, e);
    IssueSeesNothing(h, a);
    var entries := DispatchFrom(limits, t1, live, desired, rest, nowMs).entries;
    var all := [e] + entries;
    assert DispatchFrom(limits, t, live, desired, decisions, nowMs).entries == all && all[1..] == entries;
    DispatchProper(limits, t1, h1, live, desired, rest, nowMs);
    DispatchOnlyIssues(limits, t1, live, desired, rest, nowMs);
    IssuesKeep(limits, t1, h1, entries);
    IssuedIsRetained(limits, t, h, t', h', a);
    OpenIsUnique(t', h', d.key, live.epoch, a.id);
    SameFenceVerdict(t, t', d.scope, d.subject, live.epoch);
    DispatchFinds(limits, t1, h1, live, desired, rest, nowMs, later, t', h');
  }

  lemma SameFenceVerdict(t: Tables, t': Tables, scope: Id, subject: Id, epoch: nat)
    requires SameSetting(t, t')
    ensures FenceHolds(t'.fences, scope, subject, epoch) == FenceHolds(t.fences, scope, subject, epoch)
  {}

  lemma IssuedIsRetained(limits: Limits, t: Tables, h: History, t': Tables, h': History, a: Attempt)
    requires Linked(t', h') && a.state == Dispatched && a.id in h'.lineage && h'.lineage[a.id] == a
    ensures a.id in t'.attempts && t'.attempts[a.id] == a
  {
    hide SoundLineage, SoundOutcomes, StreamsLinked, OneLivePerKey;
  }

  /** Dispatching a plan twice hands out the same actions twice, and opens nothing the second time. */
  lemma RedispatchIsSilent(limits: Limits, t: Tables, h: History, live: Live, plan: Plan, clock: int, later: int)
    requires Linked(t, h) && Serving(t, h, live) && PlanSound(plan, h.seen)
             && DispatchOp(limits, t, live, plan, clock).result.Ok?
    requires t.nextAttempt + |DispatchOp(limits, t, live, plan, clock).entries| < TWO64
    ensures var first := DispatchOp(limits, t, live, plan, clock);
            var second := DispatchOp(limits, CommitAll(limits, t, first.entries), live, plan, later);
            && second.entries == [] && second.result.Ok?
            && second.result.value.actions == first.result.value.actions
            && second.result.value.alreadyIssued == |first.result.value.actions|
            && second.result.value.fenced == first.result.value.fenced
  {
    hide Linked, Serving, CommitAll, TrackAll, DispatchFrom, DispatchRefusal, Admits, Steady, BoundTo;
    var first := DispatchOp(limits, t, live, plan, clock);
    AcceptedFacts(t, live, plan);
    var desired := t.intents[plan.scope].subjects;
    var t', h' := CommitAll(limits, t, first.entries), TrackAll(h, first.entries);
    DispatchProper(limits, t, h, live, desired, plan.decisions, clock);
    DispatchOnlyIssues(limits, t, live, desired, plan.decisions, clock);
    IssuesKeep(limits, t, h, first.entries);
    DispatchFinds(limits, t, h, live, desired, plan.decisions, clock, later, t', h');
    RefusalSame(t, t', live, plan);
  }

  lemma RefusalSame(t: Tables, t': Tables, live: Live, plan: Plan)
    requires SameSetting(t, t')
    ensures DispatchRefusal(t', live, plan) == DispatchRefusal(t, live, plan)
  {
    hide SelectObservation, PolicyDigest;
  }

  // ---------------------------------------------------------------- verified without evidence

  /** A caller may report an applied attempt as verified. The transition is legal, so the outcome is committed as
      verified with no observation behind it: this happens exactly when the report is otherwise acceptable. */
  lemma CompletionVerifiesExactly(limits: Limits, t: Tables, live: Live, c: Completion, clock: int)
    ensures var effect := CompleteOp(limits, t, live, c, clock);
            effect.result.Ok? && effect.result.value.verified
            <==> && c.attempt in t.attempts && t.attempts[c.attempt].key == c.key
                 && c.epoch == live.epoch && c.boot == live.boot
                 && t.attempts[c.attempt].epoch == live.epoch && t.attempts[c.attempt].boot == live.boot
                 && t.attempts[c.attempt].state == Applied && c.target == Verified
    ensures var effect := CompleteOp(limits, t, live, c, clock);
            effect.result.Ok? ==> effect.result.value.verifiedGeneration == 0
  {
    hide Moved;
  }

  /** What an accepted verification rests on: an attempt of this incarnation, applied, and a fresh observation the store
      holds from the named verifier, newer than the one the action was decided on. */
  ghost predicate Witnessed(t: Tables, live: Live, v: Verification, clock: int, o: Outcome) {
    && o.verifiedGeneration == v.generation != 0 && o.verified == v.confirmsEffect
    && o.attempt in t.attempts
    && (var a := t.attempts[o.attempt];
        && a.key == o.key == v.key && a.state == Applied && a.epoch == live.epoch && a.boot == live.boot
        && a.authority.observationGeneration < v.generation)
    && (exists x :: x in Stream(t, v.scope) && x.reporter == v.verifier && x.observation == v.observation
                    && x.generation == v.generation
                    && EvaluateFreshness(x, ActivePolicy(t), live.epoch, clock) == Fresh)
    && (ActivePolicy(t).requireIndependentVerification ==> v.verifier != v.applier)
  }

  /** Verification, in contrast, always names the generation of an observation the store holds. */
  lemma VerificationNamesEvidence(limits: Limits, t: Tables, live: Live, v: Verification, clock: int)
    requires VerifyOp(limits, t, live, v, clock).result.Ok?
    requires forall id :: id in t.attempts ==> t.attempts[id].id == id
    ensures Witnessed(t, live, v, clock, VerifyOp(limits, t, live, v, clock).result.value)
  {
    hide EvaluateFreshness, Stream;
    var cited := FirstSame(Stream(t, v.scope), v.verifier, v.observation, v.generation);
    assert cited.Some? && cited.value in Stream(t, v.scope);
  }

  // ---------------------------------------------------------------- verifying a retry

  /** Evidence that passes every check of a verification, were it matched to attempt `id`. */
  predicate Acceptable(t: Tables, live: Live, v: Verification, clock: int, id: nat) {
    var policy := ActivePolicy(t);
    var cited := FirstSame(Stream(t, v.scope), v.verifier, v.observation, v.generation);
    && id in t.attempts
    && (var a := t.attempts[id];
        && a.id == id && a.key == v.key && a.scope == v.scope && a.subject == v.subject
        && a.epoch == live.epoch && a.boot == live.boot && a.state == Applied
        && a.authority.observationGeneration < v.generation)
    && (policy.requireIndependentVerification ==> v.verifier != v.applier) && v.receivedEpoch == live.epoch
    && cited.Some? && EvaluateFreshness(cited.value, policy, live.epoch, clock) == Fresh
  }

  /** Evidence is matched to the oldest retained attempt with its key: evidence acceptable for an attempt is accepted
      for it exactly when no older attempt with the same key is retained. */
  lemma VerificationReachesOldest(limits: Limits, t: Tables, live: Live, v: Verification, clock: int, id: nat)
    requires Acceptable(t, live, v, clock, id) && forall x :: x in t.attempts ==> t.attempts[x].id == x
    ensures var effect := VerifyOp(limits, t, live, v, clock);
            effect.result.Ok? && effect.result.value.attempt == id
            <==> forall x :: x in WithKey(t.attempts, v.key) ==> id <= x
  {
    hide EvaluateFreshness, Stream, FirstSame;
    assert id in WithKey(t.attempts, v.key);
    var oldest := Smallest(WithKey(t.attempts, v.key));
    assert oldest in WithKey(t.attempts, v.key) && oldest <= id;
  }

  /** So a retry cannot be verified while the attempt it replaced is retained: a failed attempt and its applied retry
      share their key, and no evidence is accepted for it. */
  lemma RetryCannotBeVerified(limits: Limits, t: Tables, live: Live, v: Verification, clock: int, first: nat,
                              retry: nat)
    requires first in t.attempts && retry in t.attempts && first < retry
    requires t.attempts[first].key == t.attempts[retry].key == v.key && IsTerminal(t.attempts[first].state)
             && t.attempts[retry].state == Applied
    requires forall x :: x in WithKey(t.attempts, v.key) ==> first <= x
    ensures VerifyOp(limits, t, live, v, clock).result.Refused? && VerifyOp(limits, t, live, v, clock).entries == []
  {
    hide EvaluateFreshness, Stream, FirstSame;
    assert first in WithKey(t.attempts, v.key);
    assert Smallest(WithKey(t.attempts, v.key)) == first;
  }

  // ---------------------------------------------------------------- recording an observation again

  /** Sending a submission again is accepted as a duplicate exactly when it is stamped with the same epoch and the
      same time as before; otherwise it is refused as conflicting content. */
  lemma ResubmissionExactly(limits: Limits, t: Tables, live: Live, s: Submission, epoch: nat, atMs: int, stampMs: int,
                            clock: int)
    requires ValidSubmission(limits, s) && ValidateDocument(limits, true, s.subjects).Ok?
    requires InU64(epoch) && InI64(atMs) && InU64(live.epoch) && InI64(Stamp(stampMs, clock))
    requires FirstSame(Stream(t, s.scope), s.reporter, s.observation, s.generation) == Some(Stamped(s, epoch, atMs))
    requires var a, b := Stamped(s, epoch, atMs), Stamped(s, live.epoch, Stamp(stampMs, clock));
             Fits(PutObservation(a, [])) && Fits(PutObservation(b, []))
             && NoCollision(ObservationDigestInput(a), ObservationDigestInput(b))
    ensures var effect := RecordOp(limits, t, live, s, stampMs, clock);
            && effect.entries == []
            && (effect.result.Ok? <==> epoch == live.epoch && atMs == Stamp(stampMs, clock))
            && (effect.result.Refused? ==> effect.result == Refused(ConflictState, CONFLICTING_REPUBLISHERS))
  {
    hide ValidSubjects, ObservationDigestInput, ObservationDigest, PutObservation, Fits, ValidateDocument, FirstSame,
         Stream;
    var a, b := Stamped(s, epoch, atMs), Stamped(s, live.epoch, Stamp(stampMs, clock));
    StampedValid(limits, s, epoch, atMs);
    StampedValid(limits, s, live.epoch, Stamp(stampMs, clock));
    assert s.observation != [] && s.scope != [] && s.reporter != [];
    if a.digest == b.digest { ObservationDigestBinds(limits, a, b); }
  }

  lemma StampedValid(limits: Limits, s: Submission, epoch: nat, atMs: int)
    requires ValidSubmission(limits, s) && InU64(epoch) && InI64(atMs)
    ensures ValidObservation(limits, Stamped(s, epoch, atMs))
  {
    hide ValidSubjects, ValidIdText, ObservationDigest;
    var d := Stamped(s, epoch, atMs);
    ObservationDigestIgnoresDigest(d.(digest := BLANK_DIGEST), d.digest);
  }
}
