/** What every run of the engine guarantees, from an empty store on. */
module RunTheorems {
  import opened Bytes
  import opened Ordering
  import opened Model
  import opened DocumentCodec
  import opened LineageCodec
  import opened StoreState
  import opened RecordSizes
  import opened Drift
  import opened Planner
  import opened Engine
  import opened EngineRuns
  import opened LogTheorems
  import opened EngineSafety
  import opened LineageTheorems
  import opened EngineStorage

  /** The log and the tables of any run: lawful, at most one open attempt per key, every open attempt retained; and
      while a process is up, whether or not its writes still succeed, every attempt it holds open is its own, and none
      is under a fence unless a fence installation was cut short. */
  lemma RunTheorem(limits: Limits, events: seq<Event>)
    requires RunFrom(limits, INITIAL, events).handed + 1 < TWO64
    ensures var w := RunFrom(limits, INITIAL, events);
            var h := TrackAll(NOTHING, w.log);
            && Lawful(NOTHING, w.log) && OneLivePerKey(h.lineage)
            && AttemptsLinked(TablesOf(limits, w).attempts, h.lineage)
            && (w.live.Some? ==>
                  var t := Memory(limits, w);
                  && t.lastEpoch == w.live.value.epoch && OwnAttempts(t.attempts, w.live.value)
                  && (!w.breached ==> NoneRevoked(t.attempts, t.fences)))
  {
    hide RunFrom, Admits, CommitAll, TrackAll, Lawful, OneLivePerKey, AttemptsLinked, OwnAttempts, NoneRevoked,
         PlansSound;
    var w := RunFrom(limits, INITIAL, events);
    InitialSafe(limits);
    RunIsSafe(limits, INITIAL, events);
    LogLinked(limits, w.log, |w.log|);
    assert w.log[..|w.log|] == w.log;
  }

  // ---------------------------------------------------------------- fences and records that are not written

  /** An installation that the process survives leaves no open attempt under a fence exactly when it breached nothing:
      when its fence was not written, or everything but possibly the last outcome was. */
  lemma FenceStepExactly(limits: Limits, events: seq<Event>, f: Fence, clock: int, cut: nat, fate: Fate)
    requires RunFrom(limits, INITIAL, events).handed + 1 < TWO64
    requires var w := RunFrom(limits, INITIAL, events); w.live.Some? && !w.breached
    ensures var w' := Next(limits, RunFrom(limits, INITIAL, events), Do(PutFence(f, clock), cut, fate));
            w'.live.Some? ==> (NoneRevoked(Memory(limits, w').attempts, Memory(limits, w').fences) <==> !w'.breached)
  {
    hide RunFrom, Safe;
    InitialSafe(limits);
    RunIsSafe(limits, INITIAL, events);
    FenceOutcome(limits, RunFrom(limits, INITIAL, events), f, clock, cut, fate);
  }

  lemma FenceOutcome(limits: Limits, w: World, f: Fence, clock: int, cut: nat, fate: Fate)
    requires Safe(limits, w) && w.live.Some? && !w.breached
    ensures var w' := Next(limits, w, Do(PutFence(f, clock), cut, fate));
            w'.live.Some? ==> (NoneRevoked(Memory(limits, w').attempts, Memory(limits, w').fences) <==> !w'.breached)
  {
    hide Admits, CommitAll, TrackAll, Linked, PlansSound, OwnAttempts, NoneRevoked, PutFenceOp, Reach, Serving;
    var live, op := w.live.value, PutFence(f, clock);
    if w.failed || w.closed {
      var t := Memory(limits, w);
      FailingChangesNothing(limits, w, op, PutFenceOp(limits, t, live, f, clock).entries, cut, fate);
      assert AppliedLog(Next(limits, w, Do(op, cut, fate))) == AppliedLog(w);
    } else {
      HealthyFence(limits, w, live, f, clock, cut, fate);
    }
  }

  lemma HealthyFence(limits: Limits, w: World, live: Live, f: Fence, clock: int, cut: nat, fate: Fate)
    requires Safe(limits, w) && w.live == Some(live) && !w.failed && !w.closed && !w.breached
    ensures var w' := Next(limits, w, Do(PutFence(f, clock), cut, fate));
            w'.live.Some? ==> (NoneRevoked(Memory(limits, w').attempts, Memory(limits, w').fences) <==> !w'.breached)
  {
    hide Admits, CommitAll, TrackAll, Linked, PlansSound, OwnAttempts, NoneRevoked, PutFenceOp, Reach, Serving;
    var op := PutFence(f, clock);
    var t, h := TablesOf(limits, w), TrackAll(NOTHING, w.log);
    HealthyFacts(limits, w, live);
    var entries := PutFenceOp(limits, t, live, f, clock).entries;
    assert EntriesOf(limits, t, live, op) == entries;
    var n := Smaller(cut, Reach(limits, entries));
    FenceExactly(limits, t, h, live, f, clock, n);
    var w' := Next(limits, w, Do(op, cut, fate));
    if w'.live.Some? {
      assert AppliedLog(w') == w.log + entries[..n];
      CommitSplit(limits, EMPTY, NOTHING, w.log, entries[..n]);
    }
  }

  /** With enough room for an attempt record, the journal takes all of a fence installation after the fence itself. */
  lemma LineageFits(limits: Limits, e: Entry)
    requires Roomy(limits) && ValidEntry(limits, e) && (e.AttemptMoved? || e.OutcomeCommit?)
    ensures Accepted(limits, e)
  {
    hide ValidAttempt, PutAttempt, PutOutcome;
    if e.AttemptMoved? {
      AttemptsFit(limits, e.moved);
    } else {
      OutcomeSize(e.outcome);
      IdSize(e.outcome.scope);
      IdSize(e.outcome.subject);
    }
  }

  lemma FenceAllOrNothing(limits: Limits, t: Tables, live: Live, f: Fence, clock: int)
    requires Roomy(limits) && ValidTables(limits, t) && InU64(live.epoch) && TypedOp(PutFence(f, clock))
             && limits.maxTransitions >= 1
    ensures var entries := PutFenceOp(limits, t, live, f, clock).entries;
            Reach(limits, entries) == 0 || Reach(limits, entries) == |entries|
  {
    hide ValidTables, TypedOp, PutFenceOp, Accepted;
    var entries := PutFenceOp(limits, t, live, f, clock).entries;
    FenceStorable(limits, t, live, f, clock);
    FenceShape(limits, t, live, f, clock);
    var n := Reach(limits, entries);
    if 0 < n < |entries| {
      assert Storable(limits, entries[n]);
      LineageFits(limits, entries[n]);
      assert false;
    }
  }

  lemma FenceShape(limits: Limits, t: Tables, live: Live, f: Fence, clock: int)
    ensures var entries := PutFenceOp(limits, t, live, f, clock).entries;
            forall i :: 0 < i < |entries| ==> entries[i].AttemptMoved? || entries[i].OutcomeCommit?
  {
    hide ValidFence, CloseAll, Victims;
    var entry := f.(createdMs := Stamp(f.createdMs, clock));
    VictimsKnown(t.attempts, entry);
    CloseAllShape(limits, live, ByFence, t.attempts, SortedIds(Victims(t.attempts, entry)), entry.createdMs);
  }

  lemma {:induction false} CloseAllShape(limits: Limits, live: Live, closing: Closing, attempts: map<nat, Attempt>,
                                         ids: seq<nat>, nowMs: int)
    requires forall id :: id in ids ==> id in attempts
    ensures forall e :: e in CloseAll(limits, live, closing, attempts, ids, nowMs)
                        ==> e.AttemptMoved? || (e.OutcomeCommit? && e.outcome.verifiedGeneration == 0)
    decreases |ids|
  {
    hide Moved, MovedByRestart, ClosingStep;
    if ids != [] { CloseAllShape(limits, live, closing, attempts, ids[1..], nowMs); }
  }

  /** A write of this event fails after the fence itself was written, with more than the last outcome still to come. */
  predicate FailsInside(limits: Limits, w: World, e: Event) {
    && e.Do? && e.op.PutFence? && e.fate.Fails? && w.live.Some? && !w.failed && !w.closed
    && 0 < e.cut && e.cut + 1 < Reach(limits, EntriesOf(limits, Memory(limits, w), w.live.value, e.op))
  }

  /** With that room, only such a write leaves an installation that the process survives incomplete. */
  lemma BreachedExactly(limits: Limits, w: World, e: Event)
    requires Kept(limits, w) && TypedEvent(e) && Roomy(limits) && limits.maxTransitions >= 1 && !w.breached
    ensures Next(limits, w, e).breached <==> FailsInside(limits, w, e)
  {
    hide ValidTables, AllStorable, AllAccepted, PlansStorable, Boot, PlanSpec, Memory, TablesOf, PutFenceOp, Reach,
         TypedOp, Held;
    if e.Do? && w.live.Some? && e.op.PutFence? && !w.failed && !w.closed {
      WorldValid(limits, w);
      FenceAllOrNothing(limits, Memory(limits, w), w.live.value, e.op.fence, e.op.clock);
    }
  }

  predicate NoneFailsInside(limits: Limits, w: World, events: seq<Event>)
    decreases |events|
  {
    events == []
    || (!FailsInside(limits, w, events[0]) && NoneFailsInside(limits, Next(limits, w, events[0]), events[1..]))
  }

  /** With that room, and unless a write fails in the middle of a fence installation, no run ever holds an open attempt
      under a fence. */
  lemma {:induction false} NoneEverRevoked(limits: Limits, w: World, events: seq<Event>)
    requires Kept(limits, w) && TypedEvents(events) && Roomy(limits) && limits.maxTransitions >= 1 && !w.breached
    requires NoneFailsInside(limits, w, events) && Safe(limits, w) && RunFrom(limits, w, events).handed + 1 < TWO64
    ensures var end := RunFrom(limits, w, events);
            !end.breached && (end.live.Some? ==> NoneRevoked(Memory(limits, end).attempts, Memory(limits, end).fences))
    decreases |events|
  {
    hide Next, Kept, TypedEvent, Memory, NoneRevoked, Admits, PlansSound, FailsInside;
    if events != [] {
      RunHands(limits, Next(limits, w, events[0]), events[1..]);
      NextSafe(limits, w, events[0]);
      NextKept(limits, w, events[0]);
      BreachedExactly(limits, w, events[0]);
      NoneEverRevoked(limits, Next(limits, w, events[0]), events[1..]);
    }
  }

  // ---------------------------------------------------------------- who wrote a record

  /** The state of a run before its event `i`. */
  function At(limits: Limits, events: seq<Event>, i: nat): World
    requires i <= |events|
  {
    RunFrom(limits, INITIAL, events[..i])
  }

  lemma {:induction false} RunSplit(limits: Limits, w: World, events: seq<Event>, i: nat)
    requires i < |events|
    ensures RunFrom(limits, w, events[..i + 1]) == Next(limits, RunFrom(limits, w, events[..i]), events[i])
    decreases i
  {
    hide Next;
    if i == 0 {
      assert events[..1] == [events[0]] && events[..1][1..] == [] && events[..0] == [];
    } else {
      RunSplit(limits, Next(limits, w, events[0]), events[1..], i - 1);
      assert events[..i + 1][1..] == events[1..][..i] && events[..i][1..] == events[1..][..i - 1];
    }
  }

  /** The records an event writes, in the state it finds. */
  function RecordsOf(limits: Limits, w: World, e: Event): seq<Entry> {
    match e
    case Start(supplied, boot, clock, _) => Boot(limits, TablesOf(limits, w), supplied, boot, clock).entries
    case Do(op, _, _) => if w.live.None? then [] else EntriesOf(limits, Memory(limits, w), w.live.value, op)
    case _ => []
  }

  lemma NextAppends(limits: Limits, w: World, e: Event)
    ensures w.log <= Next(limits, w, e).log
    ensures var more := Next(limits, w, e).log[|w.log|..]; more <= RecordsOf(limits, w, e)
  {
    hide Boot, PlanSpec, EntriesOf, Memory, TablesOf, Reach, Held;
    assert w.log[|w.log|..] == [];
  }

  /** Event `i` made record `n` durable. */
  predicate Writes(limits: Limits, events: seq<Event>, i: nat, n: nat)
    requires i < |events|
  {
    |At(limits, events, i).log| <= n < |At(limits, events, i + 1).log|
  }

  /** Some event wrote record `n`. */
  lemma {:induction false} WrittenBy(limits: Limits, events: seq<Event>, m: nat, n: nat) returns (i: nat)
    requires m <= |events| && n < |At(limits, events, m).log|
    ensures i < m && Writes(limits, events, i, n)
    ensures var w := At(limits, events, i);
            && n - |w.log| < |RecordsOf(limits, w, events[i])|
            && At(limits, events, m).log[n] == RecordsOf(limits, w, events[i])[n - |w.log|]
    decreases m
  {
    hide Next, RunFrom, RecordsOf;
    if m == 0 {
      assert events[..0] == [];
      NothingRun(limits);
      assert false;
    } else {
      var w := At(limits, events, m - 1);
      RunSplit(limits, INITIAL, events, m - 1);
      NextAppends(limits, w, events[m - 1]);
      if n < |w.log| {
        i := WrittenBy(limits, events, m - 1, n);
      } else {
        i := m - 1;
        assert At(limits, events, m).log[n] == At(limits, events, m).log[|w.log|..][n - |w.log|];
      }
    }
  }

  lemma NothingRun(limits: Limits)
    ensures RunFrom(limits, INITIAL, []).log == []
  {}

  lemma {:induction false} HandedGrows(limits: Limits, events: seq<Event>, i: nat, m: nat)
    requires i <= m <= |events|
    ensures At(limits, events, i).handed <= At(limits, events, m).handed
    decreases m
  {
    hide Next, RunFrom;
    if i < m {
      HandedGrows(limits, events, i, m - 1);
      RunSplit(limits, INITIAL, events, m - 1);
      NextHands(limits, At(limits, events, m - 1), events[m - 1]);
    }
  }

  /** Every state a run passes through is safe. */
  lemma SafeAt(limits: Limits, events: seq<Event>, i: nat)
    requires RunFrom(limits, INITIAL, events).handed + 1 < TWO64 && i <= |events|
    ensures Safe(limits, At(limits, events, i))
  {
    hide RunFrom, Safe;
    assert events[..|events|] == events;
    HandedGrows(limits, events, i, |events|);
    InitialSafe(limits);
    RunIsSafe(limits, INITIAL, events[..i]);
  }

  // ---------------------------------------------------------------- where a verified generation comes from

  lemma OnlyVerifyNames(limits: Limits, t: Tables, live: Live, op: Op, k: nat)
    requires k < |EntriesOf(limits, t, live, op)| && EntriesOf(limits, t, live, op)[k].OutcomeCommit?
    requires EntriesOf(limits, t, live, op)[k].outcome.verifiedGeneration != 0
    ensures op.Verify? && VerifyOp(limits, t, live, op.verification, op.clock).result
                          == Ok(EntriesOf(limits, t, live, op)[k].outcome)
  {
    hide PutPolicyOp, CommitIntentOp, RecordOp, DispatchFrom, DispatchRefusal, Moved, FirstSame, EvaluateFreshness,
         Stream, ValidFence, CloseAll, Victims;
    match op {
      case PutPolicy(p, same) => PolicyShape(limits, t, p, same);
      case CommitIntent(d) => IntentShape(limits, t, d);
      case RecordObservation(s, at, clock) => ObservationShape(limits, t, live, s, at, clock);
      case DispatchPlan(plan, clock) =>
        if DispatchRefusal(t, live, plan).Ok? {
          AcceptedFacts(t, live, plan);
          DispatchOnlyIssues(limits, t, live, t.intents[plan.scope].subjects, plan.decisions, clock);
        }
      case PutFence(f, clock) =>
        var entry := f.(createdMs := Stamp(f.createdMs, clock));
        VictimsKnown(t.attempts, entry);
        CloseAllShape(limits, live, ByFence, t.attempts, SortedIds(Victims(t.attempts, entry)), entry.createdMs);
      case _ =>
    }
  }

  lemma BootNamesNothing(limits: Limits, t: Tables, supplied: Option<Policy>, boot: BootId, clock: int, k: nat)
    requires k < |Boot(limits, t, supplied, boot, clock).entries|
             && Boot(limits, t, supplied, boot, clock).entries[k].OutcomeCommit?
    ensures Boot(limits, t, supplied, boot, clock).entries[k].outcome.verifiedGeneration == 0
  {
    hide CloseAll, InitialPolicy, OpenIds;
    CloseAllShape(limits, Live((t.lastEpoch + 1) % TWO64, boot), ByRestart, t.attempts, OpenIds(t.attempts), clock);
  }

  lemma MemoryIdentities(limits: Limits, w: World)
    requires Safe(limits, w)
    ensures forall id :: id in Memory(limits, w).attempts ==> Memory(limits, w).attempts[id].id == id
  {
    hide Admits, CommitAll, TrackAll, Linked, PlansSound, Attached;
    LogLinked(limits, w.log, w.applied);
    var t, h := Memory(limits, w), TrackAll(NOTHING, w.log[..w.applied]);
    forall id | id in t.attempts ensures t.attempts[id].id == id { TableIdentity(t, h, id); }
  }

  /** Event `e`, in state `w`, is a verification that was accepted with this outcome: the process was up and held the
      attempt applied and as its own, and the observation it cites, of the named verifier and fresh. */
  ghost predicate VerifiedBy(limits: Limits, w: World, e: Event, o: Outcome) {
    && e.Do? && e.op.Verify? && w.live.Some?
    && Witnessed(Memory(limits, w), w.live.value, e.op.verification, e.op.clock, o)
  }

  /** Every outcome any run commits that names a generation was written by a verification: of an attempt this
      incarnation issued and held applied, citing a fresh observation that the store held from the named verifier. */
  lemma NamedGenerationWasVerified(limits: Limits, events: seq<Event>, n: nat)
    requires RunFrom(limits, INITIAL, events).handed + 1 < TWO64
    requires n < |RunFrom(limits, INITIAL, events).log| && RunFrom(limits, INITIAL, events).log[n].OutcomeCommit?
    requires RunFrom(limits, INITIAL, events).log[n].outcome.verifiedGeneration != 0
    ensures exists i :: 0 <= i < |events| && Writes(limits, events, i, n)
              && VerifiedBy(limits, At(limits, events, i), events[i], RunFrom(limits, INITIAL, events).log[n].outcome)
  {
    hide RunFrom, Boot, EntriesOf, Memory, TablesOf, Witnessed, Safe;
    assert events[..|events|] == events;
    var i := WrittenBy(limits, events, |events|, n);
    var w, e := At(limits, events, i), events[i];
    var o, k := RunFrom(limits, INITIAL, events).log[n].outcome, n - |w.log|;
    match e {
      case Start(supplied, boot, clock, _) =>
        BootNamesNothing(limits, TablesOf(limits, w), supplied, boot, clock, k);
        assert false;
      case Do(op, _, _) =>
        var t, live := Memory(limits, w), w.live.value;
        OnlyVerifyNames(limits, t, live, op, k);
        SafeAt(limits, events, i);
        MemoryIdentities(limits, w);
        VerificationNamesEvidence(limits, t, live, op.verification, op.clock);
        assert VerifiedBy(limits, w, e, o);
    }
  }
}
