/** Safety over whole runs of the engine: operations, restarts, stops, failed writes and refused records. */
module EngineSafety {
  import opened Bytes
  import opened Ordering
  import opened Model
  import opened DocumentCodec
  import opened LineageCodec
  import opened StoreState
  import opened RecordSizes
  import opened Drift
  import opened Planner
  import opened PlanTheorems
  import opened Engine
  import opened EngineRuns
  import opened LogTheorems

  // ---------------------------------------------------------------- dispatch

  lemma KeyIsFree(t: Tables, h: History, live: Live, key: Digest)
    requires Linked(t, h) && Serving(t, h, live) && FindLive(t.attempts, key, live.epoch).None?
    ensures KeyFree(h, key)
  {
    hide OneLivePerKey, SoundLineage, SoundOutcomes, StreamsLinked, IsTerminal, FindLive;
    forall id | id in h.lineage && IsLive(h.lineage[id]) ensures h.lineage[id].key != key {
      assert id in t.attempts && t.attempts[id].epoch == live.epoch;
      assert !Matches(t.attempts[id], key, live.epoch);
    }
  }

  lemma NewIsLegal(t: Tables, h: History, live: Live, d: Decision, nowMs: int)
    requires Linked(t, h) && Serving(t, h, live) && BoundTo(d, live, h.seen)
    requires FindLive(t.attempts, d.key, live.epoch).None?
    ensures var a := NewAttempt(t, live, d, nowMs);
            && Legal(h, AttemptIssued(a)) && a.id == t.nextAttempt && a.epoch == live.epoch && a.boot == live.boot
            && a.key == d.key && a.scope == d.scope && a.subject == d.subject && a.state == Dispatched
  {
    hide OneLivePerKey, SoundOutcomes, StreamsLinked, AttemptsLinked, FindLive, Supported;
    KeyIsFree(t, h, live, d.key);
    var a := NewAttempt(t, live, d, nowMs);
    assert a.id !in h.lineage by {
      assert forall id :: id in h.lineage ==> SoundAttempt(h.lineage[id], id, h.epoch, t.nextAttempt);
    }
  }

  /** A new attempt of this incarnation keeps it serving. */
  lemma IssueServes(limits: Limits, t: Tables, h: History, live: Live, a: Attempt)
    requires Linked(t, h) && Serving(t, h, live) && Legal(h, AttemptIssued(a)) && OwnNew(t.fences, live, a)
    ensures Serving(Commit(limits, t, AttemptIssued(a)), Track(h, AttemptIssued(a)), live)
    ensures SameSetting(t, Commit(limits, t, AttemptIssued(a)))
  {
    hide OwnAttempts, NoneRevoked, TrimmedAttempts, FenceHolds, IsTerminal, Linked, Legal;
    StepKeeps(limits, t, h, live, AttemptIssued(a));
  }

  lemma {:induction false} DispatchProper(limits: Limits, t: Tables, h: History, live: Live, desired: map<Id, Subject>,
                                          decisions: seq<Decision>, nowMs: int)
    requires Linked(t, h) && Serving(t, h, live) && AllBound(decisions, live, h.seen)
    requires t.nextAttempt + |DispatchFrom(limits, t, live, desired, decisions, nowMs).entries| < TWO64
    ensures Proper(limits, t, h, live, DispatchFrom(limits, t, live, desired, decisions, nowMs).entries)
    decreases |decisions|
  {
    hide Linked, Serving, Legal, Commit, Track, FenceHolds, FindLive, NewAttempt, BoundTo;
    if decisions == [] {
      ServingFacts(t, h, live);
      NothingProper(limits, t, h, live);
    } else {
      var d := decisions[0];
      if d.disposition == Actionable && !FenceHolds(t.fences, d.scope, d.subject, live.epoch)
         && FindLive(t.attempts, d.key, live.epoch).None? {
        var a := NewAttempt(t, live, d, nowMs);
        var e := AttemptIssued(a);
        assert BoundTo(d, live, h.seen);
        NewIsLegal(t, h, live, d, nowMs);
        ServingFacts(t, h, live);
        CommitLinked(limits, t, h, e);
        IssueServes(limits, t, h, live, a);
        CommitCounts(limits, t, h, e);
        IssueSeesNothing(h, a);
        var rest := DispatchFrom(limits, Commit(limits, t, e), live, desired, decisions[1..], nowMs).entries;
        DispatchProper(limits, Commit(limits, t, e), Track(h, e), live, desired, decisions[1..], nowMs);
        var es := [e] + rest;
        assert es[1..] == rest;
      } else {
        DispatchProper(limits, t, h, live, desired, decisions[1..], nowMs);
      }
    }
  }

  lemma IssueSeesNothing(h: History, a: Attempt)
    ensures Track(h, AttemptIssued(a)).seen == h.seen
  {}

  lemma ServingFacts(t: Tables, h: History, live: Live)
    requires Serving(t, h, live)
    ensures t.policy.Some? && h.pending.None? && t.lastEpoch == live.epoch
  {}

  predicate OnlyIssues(entries: seq<Entry>) {
    forall i :: 0 <= i < |entries| ==> entries[i].AttemptIssued?
  }

  lemma {:induction false} DispatchOnlyIssues(limits: Limits, t: Tables, live: Live, desired: map<Id, Subject>,
                                              decisions: seq<Decision>, nowMs: int)
    ensures OnlyIssues(DispatchFrom(limits, t, live, desired, decisions, nowMs).entries)
    decreases |decisions|
  {
    hide FenceHolds, FindLive, Commit, NewAttempt;
    if decisions != [] {
      var d := decisions[0];
      DispatchOnlyIssues(limits, t, live, desired, decisions[1..], nowMs);
      DispatchOnlyIssues(limits, Commit(limits, t, AttemptIssued(NewAttempt(t, live, d, nowMs))), live, desired,
                         decisions[1..], nowMs);
    }
  }

  // ---------------------------------------------------------------- every operation

  lemma OpProper(limits: Limits, t: Tables, h: History, live: Live, op: Op)
    requires Linked(t, h) && Serving(t, h, live) && (op.DispatchPlan? ==> PlanSound(op.plan, h.seen))
    requires t.nextAttempt + |EntriesOf(limits, t, live, op)| < TWO64
    ensures Proper(limits, t, h, live, EntriesOf(limits, t, live, op))
  {
    hide Linked, Serving, Proper, PutPolicyOp, CommitIntentOp, RecordOp, CompleteOp, VerifyOp, PutFenceOp, DispatchFrom,
         DispatchRefusal;
    ServingFacts(t, h, live);
    NothingProper(limits, t, h, live);
    match op {
      case PutPolicy(p, same) =>
        PolicyShape(limits, t, p, same);
        ShapeProper(limits, t, h, live, EntriesOf(limits, t, live, op));
      case CommitIntent(d) =>
        IntentShape(limits, t, d);
        ShapeProper(limits, t, h, live, EntriesOf(limits, t, live, op));
      case RecordObservation(s, at, clock) =>
        ObservationShape(limits, t, live, s, at, clock);
        ShapeProper(limits, t, h, live, EntriesOf(limits, t, live, op));
      case DispatchPlan(plan, clock) =>
        if DispatchRefusal(t, live, plan).Ok? {
          AcceptedFacts(t, live, plan);
          DispatchProper(limits, t, h, live, t.intents[plan.scope].subjects, plan.decisions, clock);
        }
      case Complete(c, clock) => CompleteProper(limits, t, h, live, c, clock);
      case Verify(v, clock) => VerifyProper(limits, t, h, live, v, clock);
      case PutFence(f, clock) => FenceProper(limits, t, h, live, f, clock);
      case ClearFence(id) => ShapeProper(limits, t, h, live, EntriesOf(limits, t, live, op));
    }
  }

  lemma AcceptedFacts(t: Tables, live: Live, plan: Plan)
    requires DispatchRefusal(t, live, plan).Ok?
    ensures plan.live == live && plan.scope in t.intents
  {
    hide SelectObservation, PolicyDigest;
  }

  predicate DocumentShape(entries: seq<Entry>) {
    || entries == []
    || (|entries| == 1 && (entries[0].PolicyPut? || entries[0].IntentCommit? || entries[0].ObservationCommit?
                           || entries[0].FenceClear?))
  }

  lemma ShapeProper(limits: Limits, t: Tables, h: History, live: Live, entries: seq<Entry>)
    requires h.pending.None? && DocumentShape(entries)
    ensures Proper(limits, t, h, live, entries)
  {
    hide Proper;
    if entries == [] {
      NothingProper(limits, t, h, live);
    } else {
      assert entries == [entries[0]];
      DocumentProper(limits, t, h, live, entries[0]);
    }
  }

  lemma PolicyShape(limits: Limits, t: Tables, p: Policy, same: bool)
    ensures DocumentShape(PutPolicyOp(limits, t, p, same).entries)
  {
    hide CanonicalisePolicy, PolicyDigest;
  }

  lemma IntentShape(limits: Limits, t: Tables, d: Intent)
    ensures DocumentShape(CommitIntentOp(limits, t, d).entries)
  {
    hide ValidateDocument, IntentDigest;
  }

  lemma ObservationShape(limits: Limits, t: Tables, live: Live, s: Submission, at: int, clock: int)
    ensures DocumentShape(RecordOp(limits, t, live, s, at, clock).entries)
  {
    hide ValidateDocument, ObservationDigest, FirstSame, Stamped;
  }

  /** Only the fence operation installs a fence. */
  lemma OnlyFencesFence(limits: Limits, t: Tables, live: Live, op: Op)
    requires !op.PutFence?
    ensures NoFencePut(EntriesOf(limits, t, live, op))
  {
    hide PutPolicyOp, CommitIntentOp, RecordOp, DispatchFrom, DispatchRefusal, Moved, FirstSame, EvaluateFreshness,
         Stream;
    match op {
      case PutPolicy(p, same) => PolicyShape(limits, t, p, same);
      case CommitIntent(d) => IntentShape(limits, t, d);
      case RecordObservation(s, at, clock) => ObservationShape(limits, t, live, s, at, clock);
      case DispatchPlan(plan, clock) =>
        if DispatchRefusal(t, live, plan).Ok? {
          AcceptedFacts(t, live, plan);
          DispatchOnlyIssues(limits, t, live, t.intents[plan.scope].subjects, plan.decisions, clock);
        }
      case _ =>
    }
  }

  // ---------------------------------------------------------------- runs

  /** A plan that was asked for: the request, the incarnation and the tables it was built from, and the answer. */
  datatype Asked = Asked(request: Request, tables: Tables, live: Live, plan: Plan)

  /** A run. `log` is every record that became durable, in order, and `handed` counts those handed to the store. While
      a process is up, `applied` is how many of the log's records it has applied, `failed` says that a write of its
      failed, after which the journal takes no more from it, `closed` that a compaction left the journal closed, and
      `breached` that a fence went into force of which it could not record every consequence. */
  datatype World = World(
    log: seq<Entry>, applied: nat, handed: nat, live: Option<Live>, failed: bool, closed: bool, breached: bool,
    plans: set<Asked>)

  /** What becomes of a process in the middle of a write: it stops, or the write fails and it goes on. A write that
      failed may still have reached the disk. */
  datatype Fate = Stops | Fails(landed: bool)

  datatype Event =
    | Start(supplied: Option<Policy>, boot: BootId, clock: int, cut: nat)
    | Ask(request: Request)
    | Do(op: Op, cut: nat, fate: Fate)
    | Compaction(closes: bool, fails: bool)
    | Stop

  const INITIAL: World := World([], 0, 0, None, false, false, false, {})

  /** The tables a reopened store would hold. */
  function TablesOf(limits: Limits, w: World): Tables {
    CommitAll(limits, EMPTY, w.log)
  }

  function AppliedLog(w: World): seq<Entry> {
    if w.applied <= |w.log| then w.log[..w.applied] else w.log
  }

  /** The tables the process holds. */
  function Memory(limits: Limits, w: World): Tables {
    CommitAll(limits, EMPTY, AppliedLog(w))
  }

  predicate Held(plans: set<Asked>, plan: Plan) {
    exists a :: a in plans && a.plan == plan
  }

  function Smaller(a: nat, b: nat): nat {
    if a < b then a else b
  }

  /** How many of these records the journal would take. */
  function Room(limits: Limits, w: World, entries: seq<Entry>): nat {
    if w.failed || w.closed then 0 else Reach(limits, entries)
  }

  /** A fence is in force, and an attempt it covers has not been ended. */
  predicate Breaches(op: Op, entries: seq<Entry>, n: nat) {
    op.PutFence? && 0 < n && n + 1 < |entries|
  }

  /** An operation makes its records durable one by one until one is refused, one fails, or the process stops. */
  function Perform(limits: Limits, w: World, op: Op, entries: seq<Entry>, cut: nat, fate: Fate): World {
    var n := Smaller(cut, Room(limits, w, entries));
    var breached := w.breached || Breaches(op, entries, n);
    var done := World(w.log + entries[..n], w.applied + n, w.handed + |entries|, w.live, w.failed, w.closed, breached,
                      w.plans);
    if n == Room(limits, w, entries) then done
    else match fate
         case Stops => done.(live := None, failed := false, closed := false, breached := false)
         case Fails(landed) => done.(log := if landed then w.log + entries[..n + 1] else w.log + entries[..n],
                                     failed := true)
  }

  /** A start that is refused or fails leaves no process. */
  function Restarted(limits: Limits, w: World, effect: Effect<Live>, cut: nat): World {
    var n := Smaller(cut, Reach(limits, effect.entries));
    World(w.log + effect.entries[..n], |w.log| + n, w.handed + |effect.entries|,
          if n == |effect.entries| && effect.result.Ok? then Some(effect.result.value)
          else None, false, false, false, w.plans)
  }

  function Next(limits: Limits, w: World, e: Event): World {
    match e
    case Start(supplied, boot, clock, cut) =>
      if w.live.Some? then w else Restarted(limits, w, Boot(limits, TablesOf(limits, w), supplied, boot, clock), cut)
    case Ask(request) =>
      if w.live.None? then w
      else
        var plan := PlanSpec(limits, Memory(limits, w), w.live.value, request);
        if plan.Ok? then w.(plans := w.plans + {Asked(request, Memory(limits, w), w.live.value, plan.value)}) else w
    case Do(op, cut, fate) =>
      if w.live.None? || (op.DispatchPlan? && !Held(w.plans, op.plan)) then w
      else Perform(limits, w, op, EntriesOf(limits, Memory(limits, w), w.live.value, op), cut, fate)
    case Compaction(closes, fails) => if w.live.None? then w else w.(closed := closes, failed := w.failed || fails)
    case Stop => w.(live := None, failed := false, closed := false, breached := false)
  }

  function RunFrom(limits: Limits, w: World, events: seq<Event>): World
    decreases |events|
  {
    if events == [] then w else RunFrom(limits, Next(limits, w, events[0]), events[1..])
  }

  // ---------------------------------------------------------------- what every run keeps

  ghost predicate PlansSound(plans: set<Asked>, seen: set<Observation>) {
    forall a :: a in plans ==> PlanSound(a.plan, seen)
  }

  /** What holds of a process that is up. */
  ghost predicate Attached(limits: Limits, w: World, live: Live) {
    var t, h := Memory(limits, w), TrackAll(NOTHING, AppliedLog(w));
    && t.lastEpoch == live.epoch && t.policy.Some? && OwnAttempts(t.attempts, live)
    && (!w.failed ==> w.applied == |w.log| && h.pending.None?)
    && (!w.breached ==> NoneRevoked(t.attempts, t.fences))
  }

  /** What holds between any two events of any run. */
  ghost predicate Safe(limits: Limits, w: World) {
    && w.applied <= |w.log| <= w.handed && Admits(limits, EMPTY, NOTHING, w.log)
    && TablesOf(limits, w).nextAttempt <= |w.log| + 1
    && (w.live.Some? ==> Attached(limits, w, w.live.value))
    && PlansSound(w.plans, TrackAll(NOTHING, w.log).seen)
  }

  lemma InitialSafe(limits: Limits)
    ensures Safe(limits, INITIAL)
  {
    assert TablesOf(limits, INITIAL) == EMPTY && TrackAll(NOTHING, INITIAL.log) == NOTHING;
  }

  lemma NothingLinked()
    ensures Linked(EMPTY, NOTHING)
  {}

  /** The log is lawful, and the tables any prefix of it gives are linked to the history it tells. */
  lemma LogLinked(limits: Limits, log: seq<Entry>, n: nat)
    requires Admits(limits, EMPTY, NOTHING, log) && n <= |log|
    ensures Linked(CommitAll(limits, EMPTY, log[..n]), TrackAll(NOTHING, log[..n])) && Lawful(NOTHING, log[..n])
  {
    hide Admits, Linked;
    NothingLinked();
    AdmitsLinked(limits, EMPTY, NOTHING, log, n);
  }

  lemma {:induction false} AdmitsPrefix(limits: Limits, t: Tables, h: History, entries: seq<Entry>, n: nat)
    requires Admits(limits, t, h, entries) && n <= |entries|
    ensures Admits(limits, t, h, entries[..n])
    decreases n
  {
    hide Legal, Commit, Track;
    if n > 0 {
      AdmitsPrefix(limits, Commit(limits, t, entries[0]), Track(h, entries[0]), entries[1..], n - 1);
      assert entries[..n][1..] == entries[1..][..n - 1];
    }
  }

  lemma {:induction false} SeenGrows(h: History, entries: seq<Entry>)
    ensures h.seen <= TrackAll(h, entries).seen
    decreases |entries|
  {
    hide IsTerminal;
    if entries != [] { SeenGrows(Track(h, entries[0]), entries[1..]); }
  }

  lemma PlansGrow(plans: set<Asked>, seen: set<Observation>, more: set<Observation>)
    requires PlansSound(plans, seen) && seen <= more
    ensures PlansSound(plans, more)
  {
    hide PlanSound;
    forall a | a in plans ensures PlanSound(a.plan, more) { SoundGrows(a.plan, seen, more); }
  }

  /** What the log may be extended by. */
  lemma LogGrows(limits: Limits, w: World, entries: seq<Entry>, m: nat)
    requires Safe(limits, w) && Admits(limits, TablesOf(limits, w), TrackAll(NOTHING, w.log), entries) && m <= |entries|
    ensures var log := w.log + entries[..m];
            && Admits(limits, EMPTY, NOTHING, log)
            && CommitAll(limits, EMPTY, log) == CommitAll(limits, TablesOf(limits, w), entries[..m])
            && TrackAll(NOTHING, log) == TrackAll(TrackAll(NOTHING, w.log), entries[..m])
            && CommitAll(limits, EMPTY, log).nextAttempt <= |log| + 1
            && PlansSound(w.plans, TrackAll(NOTHING, log).seen)
  {
    hide Admits, CommitAll, TrackAll, Linked, PlansSound, Attached;
    var t, h := TablesOf(limits, w), TrackAll(NOTHING, w.log);
    LogLinked(limits, w.log, |w.log|);
    assert w.log[..|w.log|] == w.log;
    AdmitsPrefix(limits, t, h, entries, m);
    AdmitsAppend(limits, EMPTY, NOTHING, w.log, entries[..m]);
    AdmitsCounts(limits, t, h, entries, m);
    SeenGrows(h, entries[..m]);
    PlansGrow(w.plans, h.seen, TrackAll(h, entries[..m]).seen);
  }

  // ---------------------------------------------------------------- a refused record

  /** The journal never refuses an outcome right after it took the record that ended the attempt: a refusal leaves no
      attempt without its outcome. */
  lemma RefusalLeavesNothingPending(limits: Limits, log: seq<Entry>, entries: seq<Entry>)
    requires Admits(limits, EMPTY, NOTHING, log + entries) && Before(log + entries, |log|).pending.None?
    requires Before(log + entries, |log| + |entries|).pending.None?
    requires forall i :: 0 <= i < |entries| ==> !entries[i].EpochAdvance?
    ensures Before(log + entries, |log| + Reach(limits, entries)).pending.None?
  {
    hide Admits, TrackAll, Accepted;
    var all, n := log + entries, Reach(limits, entries);
    var j := |log| + n;
    if n < |entries| && Before(all, j).pending.Some? {
      NothingLinked();
      AdmitsLinked(limits, EMPTY, NOTHING, all, |all|);
      assert all[..|all|] == all && all[j] == entries[n];
      LawfulStep(all, j);
      OutcomeFollowsItsEnd(all, j);
      assert all[j - 1] == entries[n - 1];
      OutcomeFits(limits, entries[n - 1].moved, entries[n].outcome);
      assert false;
    }
  }

  lemma {:induction false} SteadyHasNoEpoch(limits: Limits, t: Tables, live: Live, entries: seq<Entry>)
    requires Steady(limits, t, live, entries)
    ensures forall i :: 0 <= i < |entries| ==> !entries[i].EpochAdvance?
    decreases |entries|
  {
    hide Commit, OwnNew;
    if entries != [] {
      SteadyHasNoEpoch(limits, Commit(limits, t, entries[0]), live, entries[1..]);
      assert forall i :: 0 < i < |entries| ==> entries[i] == entries[1..][i - 1];
    }
  }

  // ---------------------------------------------------------------- an operation

  /** What the process that is not failing holds. */
  lemma HealthyFacts(limits: Limits, w: World, live: Live)
    requires Safe(limits, w) && w.live == Some(live) && !w.failed
    ensures Memory(limits, w) == TablesOf(limits, w) && AppliedLog(w) == w.log && w.applied == |w.log|
    ensures Linked(TablesOf(limits, w), TrackAll(NOTHING, w.log))
            && Serving(TablesOf(limits, w), TrackAll(NOTHING, w.log), live)
  {
    hide Admits, CommitAll, TrackAll, Linked, PlansSound, OwnAttempts, NoneRevoked;
    assert w.log[..|w.log|] == w.log;
    LogLinked(limits, w.log, |w.log|);
  }

  lemma HeldIsSound(w: World, plan: Plan, seen: set<Observation>)
    requires PlansSound(w.plans, seen) && Held(w.plans, plan)
    ensures PlanSound(plan, seen)
  {
    hide PlanSound;
  }

  /** The tables the process holds after the first `n` records. */
  lemma TakenServes(limits: Limits, w: World, live: Live, op: Op, entries: seq<Entry>, n: nat)
    requires Safe(limits, w) && w.live == Some(live) && !w.failed && n <= |entries|
    requires entries == EntriesOf(limits, TablesOf(limits, w), live, op)
    requires Proper(limits, TablesOf(limits, w), TrackAll(NOTHING, w.log), live, entries)
    ensures var u := CommitAll(limits, TablesOf(limits, w), entries[..n]);
            && OwnAttempts(u.attempts, live) && u.policy.Some? && u.lastEpoch == live.epoch
            && (!w.breached && !Breaches(op, entries, n) ==> NoneRevoked(u.attempts, u.fences))
  {
    hide Admits, Steady, CommitAll, TrackAll, Linked, PlansSound, OwnAttempts, NoneRevoked, EntriesOf;
    var t, h := TablesOf(limits, w), TrackAll(NOTHING, w.log);
    HealthyFacts(limits, w, live);
    PrefixKeeps(limits, t, h, live, entries, n);
    if !w.breached {
      if op.PutFence? {
        FenceEntries(limits, t, live, op);
        FenceExactly(limits, t, h, live, op.fence, op.clock, n);
      } else {
        OnlyFencesFence(limits, t, live, op);
        assert NoFencePut(entries[..n]);
      }
    }
  }

  lemma FenceEntries(limits: Limits, t: Tables, live: Live, op: Op)
    requires op.PutFence?
    ensures EntriesOf(limits, t, live, op) == PutFenceOp(limits, t, live, op.fence, op.clock).entries
  {}

  lemma PendingAfter(limits: Limits, w: World, live: Live, entries: seq<Entry>)
    requires Safe(limits, w) && w.live == Some(live) && !w.failed
    requires Proper(limits, TablesOf(limits, w), TrackAll(NOTHING, w.log), live, entries)
    ensures TrackAll(NOTHING, w.log + entries[..Reach(limits, entries)]).pending.None?
  {
    hide Admits, Steady, CommitAll, TrackAll, Linked, Reach, Safe, TablesOf, AppliedLog, Memory, PlansSound, Before,
         Serving, Accepted;
    HealthyFacts(limits, w, live);
    ServingFacts(TablesOf(limits, w), TrackAll(NOTHING, w.log), live);
    LogGrows(limits, w, entries, |entries|);
    assert entries[..|entries|] == entries;
    SteadyHasNoEpoch(limits, TablesOf(limits, w), live, entries);
    PrefixHistories(w.log, entries, Reach(limits, entries));
    RefusalLeavesNothingPending(limits, w.log, entries);
  }

  lemma PrefixHistories(log: seq<Entry>, entries: seq<Entry>, n: nat)
    requires n <= |entries|
    ensures Before(log + entries, |log|) == TrackAll(NOTHING, log)
    ensures Before(log + entries, |log| + n) == TrackAll(NOTHING, log + entries[..n])
    ensures Before(log + entries, |log| + |entries|) == TrackAll(NOTHING, log + entries)
  {
    hide TrackAll;
    var all := log + entries;
    assert all[..|log|] == log && all[..|all|] == all && all[..|log| + n] == log + entries[..n];
  }

  lemma PerformSafe(limits: Limits, w: World, live: Live, op: Op, entries: seq<Entry>, cut: nat, fate: Fate)
    requires Safe(limits, w) && w.live == Some(live) && !w.failed && !w.closed
    requires entries == EntriesOf(limits, TablesOf(limits, w), live, op)
    requires Proper(limits, TablesOf(limits, w), TrackAll(NOTHING, w.log), live, entries)
    ensures Safe(limits, Perform(limits, w, op, entries, cut, fate))
  {
    hide Admits, Steady, CommitAll, TrackAll, Linked, PlansSound, OwnAttempts, NoneRevoked, EntriesOf, Reach, Breaches;
    var w' := Perform(limits, w, op, entries, cut, fate);
    var n := Smaller(cut, Reach(limits, entries));
    var m := |w'.log| - |w.log|;
    HealthyFacts(limits, w, live);
    assert w'.log == w.log + entries[..m];
    LogGrows(limits, w, entries, m);
    LogGrows(limits, w, entries, n);
    TakenServes(limits, w, live, op, entries, n);
    PendingAfter(limits, w, live, entries);
    assert AppliedLog(w') == w.log + entries[..n];
  }

  // ---------------------------------------------------------------- every event

  lemma RestartSafe(limits: Limits, w: World, supplied: Option<Policy>, boot: BootId, clock: int, cut: nat)
    requires Safe(limits, w) && w.live.None?
    ensures Safe(limits, Restarted(limits, w, Boot(limits, TablesOf(limits, w), supplied, boot, clock), cut))
  {
    hide Admits, CommitAll, TrackAll, Linked, PlansSound, OwnAttempts, NoneRevoked, Boot, Reach;
    var t, h := TablesOf(limits, w), TrackAll(NOTHING, w.log);
    var effect := Boot(limits, t, supplied, boot, clock);
    var n := Smaller(cut, Reach(limits, effect.entries));
    LogLinked(limits, w.log, |w.log|);
    assert w.log[..|w.log|] == w.log;
    BootServes(limits, t, h, supplied, boot, clock);
    LogGrows(limits, w, effect.entries, n);
    var w' := Restarted(limits, w, effect, cut);
    assert AppliedLog(w') == w'.log;
    if n == |effect.entries| { assert effect.entries[..n] == effect.entries; }
  }

  lemma AskSafe(limits: Limits, w: World, live: Live, request: Request)
    requires Safe(limits, w) && w.live == Some(live) && PlanSpec(limits, Memory(limits, w), live, request).Ok?
    ensures PlanSound(PlanSpec(limits, Memory(limits, w), live, request).value, TrackAll(NOTHING, w.log).seen)
  {
    hide Admits, CommitAll, TrackAll, Linked, PlansSound, PlanSound, OwnAttempts, NoneRevoked, PlanSpec;
    var t, h := Memory(limits, w), TrackAll(NOTHING, AppliedLog(w));
    var plan := PlanSpec(limits, t, live, request).value;
    LogLinked(limits, w.log, w.applied);
    BuiltPlanSound(limits, t, h, live, request, plan);
    CommitSplit(limits, EMPTY, NOTHING, w.log[..w.applied], w.log[w.applied..]);
    assert w.log[..w.applied] + w.log[w.applied..] == w.log;
    SeenGrows(h, w.log[w.applied..]);
    SoundGrows(plan, h.seen, TrackAll(NOTHING, w.log).seen);
  }

  /** A process whose writes fail, or whose journal is closed, changes nothing. */
  lemma FailingChangesNothing(limits: Limits, w: World, op: Op, entries: seq<Entry>, cut: nat, fate: Fate)
    requires w.failed || w.closed
    ensures Perform(limits, w, op, entries, cut, fate) == w.(handed := w.handed + |entries|)
  {
    assert entries[..0] == [];
    assert w.log + entries[..0] == w.log;
  }

  lemma DoSafe(limits: Limits, w: World, live: Live, op: Op, cut: nat, fate: Fate)
    requires Safe(limits, w) && w.live == Some(live) && (op.DispatchPlan? ==> Held(w.plans, op.plan))
    requires w.handed + |EntriesOf(limits, Memory(limits, w), live, op)| + 1 < TWO64
    ensures Safe(limits, Perform(limits, w, op, EntriesOf(limits, Memory(limits, w), live, op), cut, fate))
  {
    hide Admits, CommitAll, TrackAll, Linked, PlansSound, PlanSound, OwnAttempts, NoneRevoked, EntriesOf, Perform, Held,
         Proper, Serving;
    var entries := EntriesOf(limits, Memory(limits, w), live, op);
    if w.failed || w.closed {
      FailingChangesNothing(limits, w, op, entries, cut, fate);
    } else {
      HealthyFacts(limits, w, live);
      if op.DispatchPlan? { HeldIsSound(w, op.plan, TrackAll(NOTHING, w.log).seen); }
      OpProper(limits, TablesOf(limits, w), TrackAll(NOTHING, w.log), live, op);
      PerformSafe(limits, w, live, op, entries, cut, fate);
    }
  }

  lemma NextSafe(limits: Limits, w: World, e: Event)
    requires Safe(limits, w) && Next(limits, w, e).handed + 1 < TWO64
    ensures Safe(limits, Next(limits, w, e))
  {
    hide Admits, CommitAll, TrackAll, PlanSound, OwnAttempts, NoneRevoked, Boot, PlanSpec, EntriesOf, Restarted, Held;
    match e {
      case Start(supplied, boot, clock, cut) =>
        if w.live.None? { RestartSafe(limits, w, supplied, boot, clock, cut); }
      case Ask(request) =>
        if w.live.Some? && PlanSpec(limits, Memory(limits, w), w.live.value, request).Ok? {
          AskSafe(limits, w, w.live.value, request);
        }
      case Do(op, cut, fate) =>
        if w.live.Some? && (op.DispatchPlan? ==> Held(w.plans, op.plan)) {
          DoSafe(limits, w, w.live.value, op, cut, fate);
        }
      case Compaction(_, _) => assert AppliedLog(Next(limits, w, e)) == AppliedLog(w);
      case Stop =>
    }
  }

  lemma NextHands(limits: Limits, w: World, e: Event)
    ensures w.handed <= Next(limits, w, e).handed
  {
    hide Boot, PlanSpec, EntriesOf, TablesOf, Memory, Reach, Held;
  }

  lemma {:induction false} RunHands(limits: Limits, w: World, events: seq<Event>)
    ensures w.handed <= RunFrom(limits, w, events).handed
    decreases |events|
  {
    hide Next;
    if events != [] {
      NextHands(limits, w, events[0]);
      RunHands(limits, Next(limits, w, events[0]), events[1..]);
    }
  }

  /** Whatever the callers do, whatever the journal refuses, whenever a write fails or the process stops, every state of
      every run is safe. */
  lemma {:induction false} RunIsSafe(limits: Limits, w: World, events: seq<Event>)
    requires Safe(limits, w) && RunFrom(limits, w, events).handed + 1 < TWO64
    ensures Safe(limits, RunFrom(limits, w, events))
    decreases |events|
  {
    hide Next, Safe;
    if events != [] {
      RunHands(limits, Next(limits, w, events[0]), events[1..]);
      NextSafe(limits, w, events[0]);
      RunIsSafe(limits, Next(limits, w, events[0]), events[1..]);
    }
  }
}
