/** What a lawful log says about attempts and outcomes, record against record. */
module LogTheorems {
  import opened Bytes
  import opened Model
  import opened StoreState
  import opened Planner
  import opened Engine
  import opened EngineRuns

  /** The history just before record `n`. */
  function Before(log: seq<Entry>, n: nat): History
    requires n <= |log|
  {
    TrackAll(NOTHING, log[..n])
  }

  lemma {:induction false} TrackStep(h: History, log: seq<Entry>, n: nat)
    requires n < |log|
    ensures TrackAll(h, log[..n + 1]) == Track(TrackAll(h, log[..n]), log[n])
    decreases n
  {
    hide Track;
    if n == 0 {
      assert log[..1] == [log[0]] && log[..1][1..] == [] && log[..0] == [];
    } else {
      TrackStep(Track(h, log[0]), log[1..], n - 1);
      assert log[..n + 1][1..] == log[1..][..n] && log[..n][1..] == log[1..][..n - 1];
    }
  }

  lemma {:induction false} LawAt(h: History, log: seq<Entry>, n: nat)
    requires Lawful(h, log) && n < |log|
    ensures Legal(TrackAll(h, log[..n]), log[n])
    decreases n
  {
    hide Legal, Track;
    if n == 0 {
      assert log[..0] == [];
    } else {
      LawAt(Track(h, log[0]), log[1..], n - 1);
      assert log[..n][1..] == log[1..][..n - 1];
    }
  }

  lemma LawfulStep(log: seq<Entry>, n: nat)
    requires Lawful(NOTHING, log) && n < |log|
    ensures Legal(Before(log, n), log[n]) && Before(log, n + 1) == Track(Before(log, n), log[n])
  {
    hide Legal, Track, Lawful;
    LawAt(NOTHING, log, n);
    TrackStep(NOTHING, log, n);
  }

  /** What has ended stays as it ended; what was settled stays settled. */
  lemma {:induction false} EndedStays(log: seq<Entry>, i: nat, j: nat, id: nat)
    requires Lawful(NOTHING, log) && i <= j <= |log| && Ended(Before(log, i).lineage, id)
    ensures Ended(Before(log, j).lineage, id) && Before(log, j).lineage[id] == Before(log, i).lineage[id]
    decreases j
  {
    hide Lawful, TrackAll;
    if i < j {
      EndedStays(log, i, j - 1, id);
      LawfulStep(log, j - 1);
    }
  }

  lemma {:induction false} KnownStays(log: seq<Entry>, i: nat, j: nat)
    requires Lawful(NOTHING, log) && i <= j <= |log|
    ensures Before(log, i).lineage.Keys <= Before(log, j).lineage.Keys
            && Before(log, i).settled.Keys <= Before(log, j).settled.Keys
    ensures Before(log, i).epoch <= Before(log, j).epoch
    decreases j
  {
    hide Lawful, TrackAll, KeyFree, Describes, SameIdentity, TransitionLegal, Backs;
    if i < j {
      KnownStays(log, i, j - 1);
      LawfulStep(log, j - 1);
    }
  }

  /** No attempt has two outcomes. */
  lemma OneOutcomePerAttempt(log: seq<Entry>, i: nat, j: nat)
    requires Lawful(NOTHING, log) && i < j < |log| && log[i].OutcomeCommit? && log[j].OutcomeCommit?
    ensures log[i].outcome.attempt != log[j].outcome.attempt
  {
    hide Lawful, TrackAll, KeyFree, Describes, SameIdentity, TransitionLegal, Backs;
    LawfulStep(log, i);
    LawfulStep(log, j);
    KnownStays(log, i + 1, j);
  }

  /** No identity is issued twice. */
  lemma IdentitiesNeverReused(log: seq<Entry>, i: nat, j: nat)
    requires Lawful(NOTHING, log) && i < j < |log| && log[i].AttemptIssued? && log[j].AttemptIssued?
    ensures log[i].issued.id != log[j].issued.id
  {
    hide Lawful, TrackAll, KeyFree, Describes, SameIdentity, TransitionLegal, Backs;
    LawfulStep(log, i);
    LawfulStep(log, j);
    KnownStays(log, i + 1, j);
  }

  /** An attempt that has ended never moves again. */
  lemma EndIsFinal(log: seq<Entry>, i: nat, j: nat)
    requires Lawful(NOTHING, log) && i < j < |log| && log[i].AttemptMoved? && IsTerminal(log[i].moved.state)
             && log[j].AttemptMoved?
    ensures log[i].moved.id != log[j].moved.id
  {
    hide Lawful, TrackAll;
    LawfulStep(log, i);
    LawfulStep(log, j);
    assert Ended(Before(log, i + 1).lineage, log[i].moved.id);
    EndedStays(log, i + 1, j, log[i].moved.id);
  }

  /** A pending history comes right after the record that ended that attempt. */
  lemma PendingJustEnded(log: seq<Entry>, n: nat)
    requires Lawful(NOTHING, log) && n <= |log| && Before(log, n).pending.Some?
    ensures 0 < n && log[n - 1].AttemptMoved? && IsTerminal(log[n - 1].moved.state)
    ensures log[n - 1].moved.id == Before(log, n).pending.value
    ensures log[n - 1].moved.id in Before(log, n).lineage
            && Before(log, n).lineage[log[n - 1].moved.id] == log[n - 1].moved
  {
    hide Lawful, TrackAll, KeyFree, Describes, SameIdentity, Backs;
    StartsEmpty(log);
    if n > 0 { LawfulStep(log, n - 1); }
  }

  lemma StartsEmpty(log: seq<Entry>)
    ensures Before(log, 0) == NOTHING
  {
    assert log[..0] == [];
  }

  /** Every outcome comes right after the record that ended its attempt, and describes it. */
  lemma OutcomeFollowsItsEnd(log: seq<Entry>, j: nat)
    requires Lawful(NOTHING, log) && j < |log| && log[j].OutcomeCommit?
    ensures 0 < j && log[j - 1].AttemptMoved? && IsTerminal(log[j - 1].moved.state)
            && Describes(log[j].outcome, log[j - 1].moved)
  {
    hide Lawful, TrackAll, KeyFree, SameIdentity, Backs;
    LawfulStep(log, j);
    PendingJustEnded(log, j);
  }

  /** The record that ends an attempt is followed by its outcome, unless the process stopped or its writes failed
      exactly there: then the next record is the next incarnation's epoch, and the attempt never gets an outcome. */
  lemma OutcomeFollowsEnd(log: seq<Entry>, i: nat)
    requires Lawful(NOTHING, log) && i + 1 < |log| && log[i].AttemptMoved? && IsTerminal(log[i].moved.state)
    ensures log[i + 1].EpochAdvance? || (log[i + 1].OutcomeCommit? && Describes(log[i + 1].outcome, log[i].moved))
    ensures log[i + 1].EpochAdvance? ==>
              forall j :: 0 <= j < |log| && log[j].OutcomeCommit? ==> log[j].outcome.attempt != log[i].moved.id
  {
    hide Lawful, TrackAll, KeyFree, SameIdentity, Backs, IsTerminal;
    LawfulStep(log, i);
    LawfulStep(log, i + 1);
    if log[i + 1].EpochAdvance? {
      forall j | 0 <= j < |log| && log[j].OutcomeCommit? ensures log[j].outcome.attempt != log[i].moved.id {
        OutcomeFollowsItsEnd(log, j);
        EndsDiffer(log, i, j - 1);
      }
    }
  }

  lemma EndsDiffer(log: seq<Entry>, i: nat, k: nat)
    requires Lawful(NOTHING, log) && i < |log| && k < |log| && i != k
    requires log[i].AttemptMoved? && IsTerminal(log[i].moved.state) && log[k].AttemptMoved?
             && IsTerminal(log[k].moved.state)
    ensures log[i].moved.id != log[k].moved.id
  {
    hide Lawful;
    if i < k { EndIsFinal(log, i, k); } else { EndIsFinal(log, k, i); }
  }

  // ---------------------------------------------------------------- where a state came from

  /** Record `k` left the attempt in this shape. */
  predicate Left(e: Entry, a: Attempt) {
    (e.AttemptIssued? && e.issued == a) || (e.AttemptMoved? && e.moved == a)
  }

  lemma {:induction false} LineageFromLog(log: seq<Entry>, n: nat, id: nat)
    requires Lawful(NOTHING, log) && n <= |log| && id in Before(log, n).lineage
    ensures exists k :: 0 <= k < n && Left(log[k], Before(log, n).lineage[id])
    decreases n
  {
    hide Lawful, TrackAll, KeyFree, SameIdentity, Backs, Describes, TransitionLegal;
    StartsEmpty(log);
    if n > 0 {
      LawfulStep(log, n - 1);
      if Left(log[n - 1], Before(log, n).lineage[id]) {
      } else {
        LineageFromLog(log, n - 1, id);
      }
    }
  }

  /** Every attempt goes back to the record that issued it, and has kept its identity since. */
  lemma {:induction false} IssuedOrigin(log: seq<Entry>, n: nat, id: nat)
    requires Lawful(NOTHING, log) && n <= |log| && id in Before(log, n).lineage
    ensures exists k :: 0 <= k < n && IssuedAs(log[k], Before(log, n).lineage[id])
    decreases n
  {
    hide Lawful, TrackAll, KeyFree, Backs, Describes, TransitionLegal, Stepped, Evidenced, Supported, Before,
         IsTerminal;
    StartsEmpty(log);
    if n > 0 {
      LawfulStep(log, n - 1);
      if !IssuedAs(log[n - 1], Before(log, n).lineage[id]) {
        IssuedOrigin(log, n - 1, id);
        var k :| 0 <= k < n - 1 && IssuedAs(log[k], Before(log, n - 1).lineage[id]);
        assert SameIdentity(Before(log, n - 1).lineage[id], Before(log, n).lineage[id]);
        assert IssuedAs(log[k], Before(log, n).lineage[id]);
      }
    }
  }

  predicate IssuedAs(e: Entry, a: Attempt) {
    e.AttemptIssued? && SameIdentity(e.issued, a)
  }

  lemma {:induction false} SeenFromLog(log: seq<Entry>, n: nat, x: Observation)
    requires Lawful(NOTHING, log) && n <= |log| && x in Before(log, n).seen
    ensures exists k :: 0 <= k < n && log[k] == ObservationCommit(x)
    decreases n
  {
    hide Lawful, TrackAll, KeyFree, SameIdentity, Backs, Describes, TransitionLegal;
    StartsEmpty(log);
    if n > 0 {
      LawfulStep(log, n - 1);
      if log[n - 1] != ObservationCommit(x) { SeenFromLog(log, n - 1, x); }
    }
  }

  /** Every move starts from a state some earlier record left, is legal from there, and is the last transition the
      attempt records; nothing else about the attempt changes. An attempt of an earlier incarnation is only ever
      abandoned or interrupted. */
  lemma MovesAreLegal(log: seq<Entry>, n: nat)
    requires Lawful(NOTHING, log) && n < |log| && log[n].AttemptMoved?
    ensures exists k, a ::
              && 0 <= k < n && Left(log[k], a) && SameIdentity(a, log[n].moved)
              && TransitionLegal(a.state, log[n].moved.state) && Stepped(a, log[n].moved, Before(log, n).epoch)
    ensures log[n].moved.epoch != Before(log, n).epoch ==>
              log[n].moved.state.Abandoned? || log[n].moved.state.Interrupted?
  {
    hide Lawful, TrackAll, KeyFree, Backs, Describes, TransitionLegal;
    LawfulStep(log, n);
    var id := log[n].moved.id;
    LineageFromLog(log, n, id);
    var k :| 0 <= k < n && Left(log[k], Before(log, n).lineage[id]);
    assert SameIdentity(Before(log, n).lineage[id], log[n].moved);
  }

  /** An attempt becomes verified only after a record left it applied, and only in the epoch that issued it. */
  lemma VerifiedWasApplied(log: seq<Entry>, n: nat)
    requires Lawful(NOTHING, log) && n < |log| && log[n].AttemptMoved? && log[n].moved.state == Verified
    ensures exists k ::
              0 <= k < n && log[k].AttemptMoved? && log[k].moved.id == log[n].moved.id && log[k].moved.state == Applied
    ensures log[n].moved.epoch == Before(log, n).epoch
  {
    hide Lawful, TrackAll, KeyFree, Backs, Describes;
    LawfulStep(log, n);
    var id := log[n].moved.id;
    LineageFromLog(log, n, id);
    var k :| 0 <= k < n && Left(log[k], Before(log, n).lineage[id]);
    if log[k].AttemptIssued? { LawfulStep(log, k); }
  }

  /** An outcome that names a generation is backed. Right before it, an attempt of the incarnation in force was verified
      or failed; an earlier record had left the attempt applied; and the log already holds an observation of its scope
      with that generation, newer than the observation its action was decided on. */
  lemma VerificationIsBacked(log: seq<Entry>, n: nat)
    requires Lawful(NOTHING, log) && n < |log| && log[n].OutcomeCommit? && log[n].outcome.verifiedGeneration != 0
    ensures 0 < n && log[n - 1].AttemptMoved? && Describes(log[n].outcome, log[n - 1].moved)
    ensures (log[n - 1].moved.state == Verified || log[n - 1].moved.state == Failed)
            && log[n - 1].moved.epoch == Before(log, n).epoch
    ensures exists k :: 0 <= k < n - 1 && LeftApplied(log[k], log[n - 1].moved)
    ensures exists k ::
              0 <= k < n && log[k].ObservationCommit? && Backs(log[k].observation, log[n].outcome, log[n - 1].moved)
  {
    hide Lawful, TrackAll, Describes, Backs, LeftApplied;
    NamedOutcome(log, n);
    var moved := log[n - 1].moved;
    var x :| x in Before(log, n).seen && Backs(x, log[n].outcome, moved);
    SeenFromLog(log, n, x);
    EndedFromApplied(log, n - 1);
  }

  /** A record that names a generation follows the end of its attempt, and rests on evidence. */
  lemma NamedOutcome(log: seq<Entry>, n: nat)
    requires Lawful(NOTHING, log) && n < |log| && log[n].OutcomeCommit? && log[n].outcome.verifiedGeneration != 0
    ensures 0 < n && log[n - 1].AttemptMoved? && Describes(log[n].outcome, log[n - 1].moved)
    ensures Evidenced(log[n].outcome, log[n - 1].moved, Before(log, n).epoch, Before(log, n).seen)
  {
    hide Lawful, TrackAll, KeyFree, TransitionLegal, SameIdentity, Describes, Evidenced;
    LawfulStep(log, n);
    PendingJustEnded(log, n);
  }

  lemma EndedFromApplied(log: seq<Entry>, n: nat)
    requires Lawful(NOTHING, log) && n < |log| && log[n].AttemptMoved? && EndedApplied(log[n].moved)
    ensures exists k :: 0 <= k < n && LeftApplied(log[k], log[n].moved)
  {
    hide Lawful, TrackAll, KeyFree, TransitionLegal, SameIdentity, LeftApplied;
    LawfulStep(log, n);
    AppliedInLog(log, n, log[n].moved);
  }

  /** This record left the attempt applied, before it moved on. */
  predicate LeftApplied(e: Entry, later: Attempt) {
    e.AttemptMoved? && e.moved.state == Applied && SameIdentity(e.moved, later)
  }

  lemma AppliedInLog(log: seq<Entry>, n: nat, moved: Attempt)
    requires Lawful(NOTHING, log) && n < |log| && log[n] == AttemptMoved(moved) && Legal(Before(log, n), log[n])
    requires moved.id in Before(log, n).lineage && Before(log, n).lineage[moved.id].state == Applied
    ensures exists k :: 0 <= k < n && LeftApplied(log[k], moved)
  {
    hide Lawful, TrackAll, KeyFree, Stepped, TransitionLegal;
    LineageFromLog(log, n, moved.id);
    var k :| 0 <= k < n && Left(log[k], Before(log, n).lineage[moved.id]);
    if log[k].AttemptIssued? { LawfulStep(log, k); }
    assert LeftApplied(log[k], moved);
  }

  /** Every attempt was issued by the incarnation in force, under its own authority, while no other attempt with its
      key was open, on an observation of its scope that the log already holds and that this incarnation received. */
  lemma IssuedOnOwnEvidence(log: seq<Entry>, n: nat)
    requires Lawful(NOTHING, log) && n < |log| && log[n].AttemptIssued?
    ensures var a := log[n].issued;
            && a.epoch == Before(log, n).epoch && a.authority.epoch == a.epoch && a.authority.boot == a.boot
            && KeyFree(Before(log, n), a.key)
    ensures exists k :: 0 <= k < n && Underlies(log[k], log[n].issued)
  {
    hide Lawful, TrackAll, KeyFree;
    LawfulStep(log, n);
    var a := log[n].issued;
    var x :| x in Before(log, n).seen && x.scope == a.scope && Cites(a.authority, x);
    SeenFromLog(log, n, x);
    var k :| 0 <= k < n && log[k] == ObservationCommit(x);
    assert Underlies(log[k], a);
  }

  /** The observation an attempt's authority names, field for field, received in the attempt's own epoch. */
  predicate Underlies(e: Entry, a: Attempt) {
    && e.ObservationCommit? && Cites(a.authority, e.observation)
    && e.observation.scope == a.scope && e.observation.receivedEpoch == a.epoch
  }

  /** Epochs only go up. */
  lemma EpochsRise(log: seq<Entry>, i: nat, j: nat)
    requires Lawful(NOTHING, log) && i < j < |log| && log[i].EpochAdvance? && log[j].EpochAdvance?
    ensures log[i].epoch < log[j].epoch
  {
    hide Lawful, TrackAll;
    LawfulStep(log, i);
    LawfulStep(log, j);
    KnownStays(log, i + 1, j);
  }
}
