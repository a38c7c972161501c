/** Dispatch over whole runs: what is issued is what a plan built at that moment would decide. */
module DispatchTheorems {
  import opened Bytes
  import opened Ordering
  import opened Model
  import opened DocumentCodec
  import opened LineageCodec
  import opened StoreState
  import opened RecordSizes
  import opened Drift
  import opened Explain
  import opened Planner
  import opened PlanTheorems
  import opened Replan
  import opened Engine
  import opened EngineRuns
  import opened LogTheorems
  import opened EngineSafety
  import opened EngineStorage
  import opened RunTheorems

  // ---------------------------------------------------------------- what the store holds was encoded

  ghost predicate SizedStream(stream: seq<Observation>) {
    forall o :: o in stream ==> Fits(PutObservation(o, []))
  }

  /** Every document in the tables fits the encoder. */
  ghost predicate Sized(t: Tables) {
    && (t.policy.Some? ==> Fits(DocumentCodec.PutPolicy(t.policy.value, [])))
    && (forall scope :: scope in t.intents ==> Fits(PutIntent(t.intents[scope], [])))
    && (forall scope :: scope in t.observations ==> SizedStream(t.observations[scope]))
  }

  lemma CommitSized(limits: Limits, t: Tables, e: Entry)
    requires Sized(t) && Accepted(limits, e)
    ensures Sized(Commit(limits, t, e))
  {
    hide Fits, DocumentCodec.PutPolicy, PutIntent, PutObservation, PutAttempt, PutOutcome, LineageCodec.PutFence,
         TrimmedAttempts, ValidFence;
    match e {
      case ObservationCommit(o) =>
        SizedAppend(limits, GetOr(t.observations, o.scope, []), o);
      case _ =>
    }
  }

  lemma SizedAppend(limits: Limits, stream: seq<Observation>, o: Observation)
    requires SizedStream(stream) && Fits(PutObservation(o, []))
    ensures SizedStream(KeepLast(stream + [o], limits.maxObservationsPerScope))
  {
    hide Fits, PutObservation;
    forall x | x in KeepLast(stream + [o], limits.maxObservationsPerScope) ensures Fits(PutObservation(x, [])) {
      assert x in stream + [o];
    }
  }

  lemma {:induction false} LogSized(limits: Limits, t: Tables, log: seq<Entry>)
    requires Sized(t) && AllAccepted(limits, log)
    ensures Sized(CommitAll(limits, t, log))
    decreases |log|
  {
    hide Sized, Commit, Accepted;
    if log != [] {
      CommitSized(limits, t, log[0]);
      LogSized(limits, Commit(limits, t, log[0]), log[1..]);
    }
  }

  /** Every state a run's log leads to holds valid documents that fit the encoder. */
  lemma PrefixStored(limits: Limits, log: seq<Entry>, k: nat, scope: Id)
    requires AllStorable(limits, log) && AllAccepted(limits, log) && k <= |log|
    ensures ValidTables(limits, CommitAll(limits, EMPTY, log[..k]))
            && Encodable(CommitAll(limits, EMPTY, log[..k]), scope)
  {
    hide ValidTables, CommitAll, Storable, Accepted, Fits, DocumentCodec.PutPolicy, PutIntent, PutObservation;
    LogValid(limits, log, k);
    LogSized(limits, EMPTY, log[..k]);
    var t := CommitAll(limits, EMPTY, log[..k]);
    if scope in t.observations { assert SizedStream(t.observations[scope]); }
  }

  // ---------------------------------------------------------------- where plans and attempts come from

  predicate IssuedFor(a: Attempt, d: Decision) {
    && d.disposition == Actionable && a.key == d.key && a.scope == d.scope && a.subject == d.subject
    && a.action == d.action && a.authority == d.authority
  }

  predicate IssuedFrom(a: Attempt, decisions: seq<Decision>) {
    exists i :: 0 <= i < |decisions| && IssuedFor(a, decisions[i])
  }

  ghost predicate Traced(a: Attempt, plans: set<Asked>) {
    exists p :: p in plans && IssuedFrom(a, p.plan.decisions)
  }

  ghost predicate TablesAt(limits: Limits, log: seq<Entry>, t: Tables) {
    exists k :: 0 <= k <= |log| && t == CommitAll(limits, EMPTY, log[..k])
  }

  /** The plan is the answer to its request in tables an earlier prefix of the log gives. */
  ghost predicate Built(limits: Limits, log: seq<Entry>, p: Asked) {
    PlanSpec(limits, p.tables, p.live, p.request) == Ok(p.plan) && TablesAt(limits, log, p.tables)
  }

  ghost predicate Provenance(limits: Limits, w: World) {
    && (forall p :: p in w.plans ==> Built(limits, w.log, p))
    && (forall i :: 0 <= i < |w.log| && w.log[i].AttemptIssued? ==> Traced(w.log[i].issued, w.plans))
  }

  lemma {:induction false} DispatchIssues(limits: Limits, t: Tables, live: Live, desired: map<Id, Subject>,
                                          decisions: seq<Decision>, nowMs: int, k: nat)
    requires k < |DispatchFrom(limits, t, live, desired, decisions, nowMs).entries|
    ensures var e := DispatchFrom(limits, t, live, desired, decisions, nowMs).entries[k];
            e.AttemptIssued? && IssuedFrom(e.issued, decisions)
    decreases |decisions|
  {
    hide FenceHolds, FindLive, Commit;
    var d, rest := decisions[0], decisions[1..];
    if d.disposition == Actionable && !FenceHolds(t.fences, d.scope, d.subject, live.epoch)
       && FindLive(t.attempts, d.key, live.epoch).None? {
      var a := NewAttempt(t, live, d, nowMs);
      assert IssuedFor(a, d);
      if k > 0 {
        DispatchIssues(limits, Commit(limits, t, AttemptIssued(a)), live, desired, rest, nowMs, k - 1);
        FromRest(DispatchFrom(limits, t, live, desired, decisions, nowMs).entries[k].issued, decisions);
      }
    } else {
      DispatchIssues(limits, t, live, desired, rest, nowMs, k);
      FromRest(DispatchFrom(limits, t, live, desired, decisions, nowMs).entries[k].issued, decisions);
    }
  }

  lemma FromRest(a: Attempt, decisions: seq<Decision>)
    requires decisions != [] && IssuedFrom(a, decisions[1..])
    ensures IssuedFrom(a, decisions)
  {
    hide IssuedFor;
    var i :| 0 <= i < |decisions[1..]| && IssuedFor(a, decisions[1..][i]);
    assert IssuedFor(a, decisions[i + 1]);
  }

  /** Only dispatch issues attempts, and only for actions of its plan. */
  lemma OnlyDispatchIssues(limits: Limits, t: Tables, live: Live, op: Op, k: nat)
    requires k < |EntriesOf(limits, t, live, op)| && EntriesOf(limits, t, live, op)[k].AttemptIssued?
    ensures op.DispatchPlan? && IssuedFrom(EntriesOf(limits, t, live, op)[k].issued, op.plan.decisions)
  {
    hide PutPolicyOp, CommitIntentOp, RecordOp, DispatchOp, CompleteOp, VerifyOp, PutFenceOp, ClearFenceOp, IssuedFrom;
    match op {
      case PutPolicy(p, same) => PolicyShape(limits, t, p, same);
      case CommitIntent(d) => IntentShape(limits, t, d);
      case RecordObservation(s, at, clock) => ObservationShape(limits, t, live, s, at, clock);
      case DispatchPlan(plan, clock) => DispatchIssuesFrom(limits, t, live, plan, clock, k);
      case Complete(c, clock) => CompleteIssuesNothing(limits, t, live, c, clock, k);
      case Verify(v, clock) => VerifyIssuesNothing(limits, t, live, v, clock, k);
      case PutFence(f, clock) => FenceIssuesNothing(limits, t, live, f, clock, k);
      case ClearFence(id) => ClearIssuesNothing(t, id, k);
    }
  }

  lemma DispatchIssuesFrom(limits: Limits, t: Tables, live: Live, plan: Plan, clock: int, k: nat)
    requires k < |DispatchOp(limits, t, live, plan, clock).entries|
    requires DispatchOp(limits, t, live, plan, clock).entries[k].AttemptIssued?
    ensures IssuedFrom(DispatchOp(limits, t, live, plan, clock).entries[k].issued, plan.decisions)
  {
    hide DispatchFrom, DispatchRefusal, IssuedFrom;
    AcceptedFacts(t, live, plan);
    DispatchIssues(limits, t, live, t.intents[plan.scope].subjects, plan.decisions, clock, k);
  }

  lemma CompleteIssuesNothing(limits: Limits, t: Tables, live: Live, c: Completion, clock: int, k: nat)
    requires k < |CompleteOp(limits, t, live, c, clock).entries|
    ensures !CompleteOp(limits, t, live, c, clock).entries[k].AttemptIssued?
  {
    hide Moved, OutcomeOf;
  }

  lemma VerifyIssuesNothing(limits: Limits, t: Tables, live: Live, v: Verification, clock: int, k: nat)
    requires k < |VerifyOp(limits, t, live, v, clock).entries|
    ensures !VerifyOp(limits, t, live, v, clock).entries[k].AttemptIssued?
  {
    hide Moved, OutcomeOf, FirstSame, EvaluateFreshness, Stream;
  }

  lemma FenceIssuesNothing(limits: Limits, t: Tables, live: Live, f: Fence, clock: int, k: nat)
    requires k < |PutFenceOp(limits, t, live, f, clock).entries|
    ensures !PutFenceOp(limits, t, live, f, clock).entries[k].AttemptIssued?
  {
    hide ValidFence, CloseAll, Victims;
    var entry := f.(createdMs := Stamp(f.createdMs, clock));
    VictimsKnown(t.attempts, entry);
    CloseAllQuiet(limits, live, ByFence, t.attempts, SortedIds(Victims(t.attempts, entry)), entry.createdMs);
  }

  lemma ClearIssuesNothing(t: Tables, id: Id, k: nat)
    requires k < |ClearFenceOp(t, id).entries|
    ensures !ClearFenceOp(t, id).entries[k].AttemptIssued?
  {}

  lemma BootIssuesNothing(limits: Limits, t: Tables, supplied: Option<Policy>, boot: BootId, clock: int, k: nat)
    requires k < |Boot(limits, t, supplied, boot, clock).entries|
    ensures !Boot(limits, t, supplied, boot, clock).entries[k].AttemptIssued?
  {
    hide CloseAll, InitialPolicy, OpenIds;
    CloseAllQuiet(limits, Live((t.lastEpoch + 1) % TWO64, boot), ByRestart, t.attempts, OpenIds(t.attempts), clock);
  }

  lemma NewRecordsTraced(limits: Limits, w: World, e: Event, k: nat)
    requires |w.log| <= k < |Next(limits, w, e).log| && Next(limits, w, e).log[k].AttemptIssued?
    ensures Traced(Next(limits, w, e).log[k].issued, w.plans)
  {
    hide Boot, EntriesOf, Memory, TablesOf, PlanSpec, Perform, Restarted, Held, IssuedFrom;
    NextAppends(limits, w, e);
    var more := Next(limits, w, e).log[|w.log|..];
    assert more[k - |w.log|] == Next(limits, w, e).log[k];
    match e {
      case Start(supplied, boot, clock, _) =>
        BootIssuesNothing(limits, TablesOf(limits, w), supplied, boot, clock, k - |w.log|);
      case Do(op, _, _) =>
        OnlyDispatchIssues(limits, Memory(limits, w), w.live.value, op, k - |w.log|);
        HeldTraces(w.plans, op.plan, Next(limits, w, e).log[k].issued);
    }
  }

  lemma HeldTraces(plans: set<Asked>, plan: Plan, a: Attempt)
    requires Held(plans, plan) && IssuedFrom(a, plan.decisions)
    ensures Traced(a, plans)
  {
    hide IssuedFrom;
  }

  lemma BuiltStays(limits: Limits, log: seq<Entry>, longer: seq<Entry>, p: Asked)
    requires Built(limits, log, p) && log <= longer
    ensures Built(limits, longer, p)
  {
    hide PlanSpec, CommitAll;
    var k :| 0 <= k <= |log| && p.tables == CommitAll(limits, EMPTY, log[..k]);
    assert longer[..k] == log[..k];
  }

  lemma NextProvenance(limits: Limits, w: World, e: Event)
    requires Provenance(limits, w) && w.applied <= |w.log|
    ensures Provenance(limits, Next(limits, w, e))
  {
    hide Boot, EntriesOf, CommitAll, PlanSpec, Perform, Restarted, Held, Built, Traced;
    var w' := Next(limits, w, e);
    NextAppends(limits, w, e);
    NextPlans(limits, w, e);
    forall p | p in w'.plans ensures Built(limits, w'.log, p) {
      if p in w.plans { BuiltStays(limits, w.log, w'.log, p); } else { AskedIsBuilt(limits, w, e, p); }
    }
    forall i | 0 <= i < |w'.log| && w'.log[i].AttemptIssued? ensures Traced(w'.log[i].issued, w'.plans) {
      if i < |w.log| { assert w'.log[i] == w.log[i]; } else { NewRecordsTraced(limits, w, e, i); }
      TracesStay(w'.log[i].issued, w.plans, w'.plans);
    }
  }

  lemma TracesStay(a: Attempt, plans: set<Asked>, more: set<Asked>)
    requires Traced(a, plans) && plans <= more
    ensures Traced(a, more)
  {
    hide IssuedFrom;
  }

  lemma NextPlans(limits: Limits, w: World, e: Event)
    ensures w.plans <= Next(limits, w, e).plans
    ensures Next(limits, w, e).plans != w.plans ==> e.Ask? && Next(limits, w, e).log == w.log
  {
    hide Boot, EntriesOf, Memory, TablesOf, PlanSpec, Held, Reach;
  }

  lemma AskedIsBuilt(limits: Limits, w: World, e: Event, p: Asked)
    requires p in Next(limits, w, e).plans && p !in w.plans && w.applied <= |w.log|
    ensures Built(limits, Next(limits, w, e).log, p)
  {
    hide Boot, EntriesOf, CommitAll, PlanSpec, Held, Reach, TablesOf;
    NextPlans(limits, w, e);
    assert p.tables == CommitAll(limits, EMPTY, w.log[..w.applied]);
  }

  /** In every run, every plan held was built in tables the log passed through, and every attempt ever issued was issued
      for an action of a plan held. */
  lemma {:induction false} RunProvenance(limits: Limits, w: World, events: seq<Event>)
    requires Provenance(limits, w) && Safe(limits, w) && RunFrom(limits, w, events).handed + 1 < TWO64
    ensures Provenance(limits, RunFrom(limits, w, events))
    decreases |events|
  {
    hide Next, Provenance, Admits, Attached, PlansSound;
    if events != [] {
      RunHands(limits, Next(limits, w, events[0]), events[1..]);
      NextSafe(limits, w, events[0]);
      NextProvenance(limits, w, events[0]);
      RunProvenance(limits, Next(limits, w, events[0]), events[1..]);
    }
  }

  // ---------------------------------------------------------------- what an action was taken from

  /** An attempt that was open before, or that one of these decisions opens. */
  predicate Origin(t: Tables, decisions: seq<Decision>, a: Attempt) {
    (exists id :: id in t.attempts && t.attempts[id] == a) || IssuedFrom(a, decisions)
  }

  /** Decision `n` is an action with this key, and no fence covers it. */
  predicate Chosen(t: Tables, live: Live, decisions: seq<Decision>, n: nat, key: Digest) {
    && n < |decisions| && decisions[n].disposition == Actionable && decisions[n].key == key
    && !FenceHolds(t.fences, decisions[n].scope, decisions[n].subject, live.epoch)
  }

  lemma {:induction false} ActionOrigin(limits: Limits, t: Tables, live: Live, desired: map<Id, Subject>,
                                        decisions: seq<Decision>, nowMs: int, j: nat) returns (a: Attempt, n: nat)
    requires j < |DispatchFrom(limits, t, live, desired, decisions, nowMs).actions|
    ensures DispatchFrom(limits, t, live, desired, decisions, nowMs).actions[j] == ActionFor(a, desired)
    ensures Origin(t, decisions, a) && Chosen(t, live, decisions, n, a.key)
    decreases |decisions|
  {
    hide FenceHolds, FindLive, Commit, ActionFor, NewAttempt, Origin;
    var d, rest := decisions[0], decisions[1..];
    if d.disposition != Actionable || FenceHolds(t.fences, d.scope, d.subject, live.epoch) {
      a, n := ActionOrigin(limits, t, live, desired, rest, nowMs, j);
      OriginInRest(t, decisions, a);
      n := n + 1;
    } else if FindLive(t.attempts, d.key, live.epoch).Some? {
      var id := FindLive(t.attempts, d.key, live.epoch).value;
      if j == 0 {
        a, n := t.attempts[id], 0;
        OriginOpen(t, decisions, id);
      } else {
        a, n := ActionOrigin(limits, t, live, desired, rest, nowMs, j - 1);
        OriginInRest(t, decisions, a);
        n := n + 1;
      }
    } else {
      var first := NewAttempt(t, live, d, nowMs);
      OriginNew(t, live, decisions, nowMs);
      if j == 0 {
        a, n := first, 0;
      } else {
        a, n := ActionOrigin(limits, Commit(limits, t, AttemptIssued(first)), live, desired, rest, nowMs, j - 1);
        OriginAfterIssue(limits, t, live, decisions, nowMs, a);
        IssueKeepsFences(limits, t, first);
        n := n + 1;
      }
    }
  }

  lemma OriginInRest(t: Tables, decisions: seq<Decision>, a: Attempt)
    requires decisions != [] && Origin(t, decisions[1..], a)
    ensures Origin(t, decisions, a)
  {
    hide IssuedFrom;
    if IssuedFrom(a, decisions[1..]) { FromRest(a, decisions); }
  }

  lemma OriginOpen(t: Tables, decisions: seq<Decision>, id: nat)
    requires id in t.attempts
    ensures Origin(t, decisions, t.attempts[id])
  {}

  lemma OriginNew(t: Tables, live: Live, decisions: seq<Decision>, nowMs: int)
    requires decisions != [] && decisions[0].disposition == Actionable
    ensures var a := NewAttempt(t, live, decisions[0], nowMs); Origin(t, decisions, a) && a.key == decisions[0].key
  {
    var a := NewAttempt(t, live, decisions[0], nowMs);
    assert IssuedFor(a, decisions[0]);
  }

  lemma OriginAfterIssue(limits: Limits, t: Tables, live: Live, decisions: seq<Decision>, nowMs: int, a: Attempt)
    requires decisions != [] && decisions[0].disposition == Actionable
    requires Origin(Commit(limits, t, AttemptIssued(NewAttempt(t, live, decisions[0], nowMs))), decisions[1..], a)
    ensures Origin(t, decisions, a)
  {
    hide IssuedFrom, NewAttempt;
    if IssuedFrom(a, decisions[1..]) {
      FromRest(a, decisions);
    } else {
      OriginNew(t, live, decisions, nowMs);
    }
  }

  lemma IssueKeepsFences(limits: Limits, t: Tables, a: Attempt)
    ensures Commit(limits, t, AttemptIssued(a)).fences == t.fences
  {
    hide TrimmedAttempts;
  }

  // ---------------------------------------------------------------- one key, one action

  /** What the key of decision `i` was computed from. */
  function InputOf(plan: Plan, i: nat): KeyInput
    requires i < |plan.decisions|
  {
    var d := plan.decisions[i];
    KeyInput(d.scope, d.subject, d.action, d.authority, DesiredOf(plan.evidence.intent, d.subject),
             ExpectedOf(plan.evidence.observation, d.subject))
  }

  lemma KeyOfInput(limits: Limits, t: Tables, live: Live, request: Request, plan: Plan, i: nat)
    requires PlanSpec(limits, t, live, request) == Ok(plan) && i < |plan.decisions|
    ensures plan.decisions[i].key == Sha256Of(BytesOfKey(InputOf(plan, i)))
  {
    hide ClassifySpec, Decisions, VerdictOf, ScopeStep, FirstSteps, DecisionSteps, SelectObservation, SelectIntent,
         EvaluateFreshness, InputFor, Stream, PolicyDigest, FenceHolds, FailedComponents, AuthorityReason,
         EligibilityOf, AuthorityFor, DesiredOf, ExpectedOf, KeyBytes;
    PlannedFrom(limits, t, live, request, plan);
    var policy := PolicyFor(t, request);
    var report := ClassifySpec(InputFor(t, live, policy, request.scope, request.nowMs)).value;
    DecisionAt(ContextFor(limits, t, live, policy, request.scope, report.evidence),
               Bounded(report.records, limits.maxPlanActions), i);
  }

  /** The digest tells apart the inputs of the keys in the plans a run holds. */
  ghost predicate KeysToldApart(plans: set<Asked>) {
    forall p, q, i, j :: p in plans && q in plans && 0 <= i < |p.plan.decisions| && 0 <= j < |q.plan.decisions|
                         ==> NoCollision(BytesOfKey(InputOf(p.plan, i)), BytesOfKey(InputOf(q.plan, j)))
  }

  lemma SameKeySameAction(limits: Limits, log: seq<Entry>, plans: set<Asked>, p: Asked, i: nat, q: Asked, j: nat)
    requires p in plans && q in plans && Built(limits, log, p) && Built(limits, log, q) && KeysToldApart(plans)
    requires i < |p.plan.decisions| && j < |q.plan.decisions| && p.plan.decisions[i].key == q.plan.decisions[j].key
    requires DecisionStorable(p.plan.decisions[i]) && DecisionStorable(q.plan.decisions[j])
    ensures var d, e := p.plan.decisions[i], q.plan.decisions[j];
            d.scope == e.scope && d.subject == e.subject && d.action == e.action
  {
    hide PlanSpec, BytesOfKey, ValidIdText, ValidAuthority, TablesAt, DesiredOf, ExpectedOf;
    KeyOfInput(limits, p.tables, p.live, p.request, p.plan, i);
    KeyOfInput(limits, q.tables, q.live, q.request, q.plan, j);
    assert NoCollision(BytesOfKey(InputOf(p.plan, i)), BytesOfKey(InputOf(q.plan, j)));
    KeyBytesBind(InputOf(p.plan, i), InputOf(q.plan, j));
  }

  // ---------------------------------------------------------------- the theorem

  /** The digest tells apart the documents this plan was built on and those now held. */
  ghost predicate DocumentsToldApart(limits: Limits, p: Asked, u: Tables) {
    && Distinguished(p.tables, u, p.request.scope)
    && (p.tables.policy.Some? ==> PolicyDistinguished(limits, p.tables, p.tables, p.request)
                                  && PolicyDistinguished(limits, p.tables, u, p.request))
  }

  /** A plan that came out of planning again decides, at `n`, on this very action. */
  predicate Decides(again: Result<Plan>, n: nat, x: Action) {
    && again.Ok? && n < |again.value.decisions|
    && var d := again.value.decisions[n];
    d.disposition == Actionable && d.key == x.key && d.scope == x.scope && d.subject == x.subject
    && d.action == x.action
  }

  /** The attempt behind an action goes back to an action of a plan the run holds. */
  lemma OriginTraced(limits: Limits, w: World, p: Asked, a: Attempt) returns (q: Asked, m: nat)
    requires Safe(limits, w) && Provenance(limits, w) && p in w.plans && Origin(Memory(limits, w), p.plan.decisions, a)
    ensures q in w.plans && m < |q.plan.decisions| && IssuedFor(a, q.plan.decisions[m])
  {
    hide Admits, Attached, PlansSound, CommitAll, TrackAll, Built, Linked, IssuedFor, Lawful;
    if IssuedFrom(a, p.plan.decisions) {
      var i :| 0 <= i < |p.plan.decisions| && IssuedFor(a, p.plan.decisions[i]);
      q, m := p, i;
    } else {
      var t, log := Memory(limits, w), w.log[..w.applied];
      var id :| id in t.attempts && t.attempts[id] == a;
      LogLinked(limits, w.log, w.applied);
      assert log[..|log|] == log;
      InLineage(t, TrackAll(NOTHING, log), id);
      IssuedOrigin(log, |log|, id);
      var k :| 0 <= k < |log| && IssuedAs(log[k], a);
      assert w.log[k] == log[k] && Traced(w.log[k].issued, w.plans);
      q :| q in w.plans && IssuedFrom(w.log[k].issued, q.plan.decisions);
      m :| 0 <= m < |q.plan.decisions| && IssuedFor(w.log[k].issued, q.plan.decisions[m]);
      SameIssue(w.log[k].issued, a, q.plan.decisions[m]);
    }
  }

  lemma InLineage(t: Tables, h: History, id: nat)
    requires Linked(t, h) && id in t.attempts
    ensures id in h.lineage && h.lineage[id] == t.attempts[id]
  {}

  lemma SameIssue(a: Attempt, b: Attempt, d: Decision)
    requires IssuedFor(a, d) && SameIdentity(a, b)
    ensures IssuedFor(b, d)
  {}

  /** In every run, each action a dispatch hands out, new or already open, is one that a plan built in the tables of
      that moment, at the old plan's clock reading, marks actionable with the same key, subject and kind: whatever
      documents, policies, fences and restarts came in between, as long as the digest does not collide on what is
      compared. */
  lemma DispatchedIsReplanned(limits: Limits, events: seq<Event>, w: World, p: Asked, clock: int, j: nat)
    requires EngineRun(limits, events, w) && w.handed + 1 < TWO64 && w.live.Some? && p in w.plans
    requires DocumentsToldApart(limits, p, Memory(limits, w)) && KeysToldApart(w.plans)
    requires var effect := DispatchOp(limits, Memory(limits, w), w.live.value, p.plan, clock);
             effect.result.Ok? && j < |effect.result.value.actions|
    ensures exists n :: Decides(PlanSpec(limits, Memory(limits, w), w.live.value, p.request), n,
                                DispatchOp(limits, Memory(limits, w), w.live.value, p.plan,
                                           clock).result.value.actions[j])
  {
    hide RunFrom, Safe, Kept, Provenance, PlanSpec, DispatchFrom, DispatchRefusal, Memory, DocumentsToldApart,
         KeysToldApart, TypedEvents, Origin, Chosen, ActionFor, Decides;
    InitialSafe(limits);
    RunIsSafe(limits, INITIAL, events);
    InitialKept(limits);
    RunIsStorable(limits, INITIAL, events);
    InitialProvenance(limits);
    RunProvenance(limits, INITIAL, events);
    var t, live := Memory(limits, w), w.live.value;
    AcceptedFacts(t, live, p.plan);
    var desired := t.intents[p.plan.scope].subjects;
    var a, n := ActionOrigin(limits, t, live, desired, p.plan.decisions, clock, j);
    var q, m := OriginTraced(limits, w, p, a);
    ChosenIsReplanned(limits, w, p, n, a, q, m, desired);
  }

  lemma InitialProvenance(limits: Limits)
    ensures Provenance(limits, INITIAL)
  {}

  lemma ChosenIsReplanned(limits: Limits, w: World, p: Asked, n: nat, a: Attempt, q: Asked, m: nat,
                          desired: map<Id, Subject>)
    requires Safe(limits, w) && Kept(limits, w) && Provenance(limits, w) && w.live.Some? && p in w.plans && q in w.plans
    requires DocumentsToldApart(limits, p, Memory(limits, w)) && KeysToldApart(w.plans)
    requires DispatchRefusal(Memory(limits, w), w.live.value, p.plan).Ok?
    requires Chosen(Memory(limits, w), w.live.value, p.plan.decisions, n, a.key)
    requires m < |q.plan.decisions| && IssuedFor(a, q.plan.decisions[m])
    ensures Decides(PlanSpec(limits, Memory(limits, w), w.live.value, p.request), n, ActionFor(a, desired))
  {
    hide Safe, PlanSpec, DispatchRefusal, CommitAll, DocumentsToldApart, KeysToldApart, FenceHolds, Built, AllStorable,
         AllAccepted, DecisionStorable, TypedEvents, Spans, FreshAt;
    var t, live := Memory(limits, w), w.live.value;
    assert Built(limits, w.log, p) && Built(limits, w.log, q);
    assert DecisionStorable(p.plan.decisions[n]) by { assert PlanStorable(p.plan); }
    assert DecisionStorable(q.plan.decisions[m]) by { assert PlanStorable(q.plan); }
    SameKeySameAction(limits, w.log, w.plans, p, n, q, m);
    PlanSpans(limits, w, p);
    FreshAtOwnReading(limits, p.tables, t, live, p.request, p.plan, n);
    DispatchAgreesWithReplan(limits, p.tables, t, live, p.request, p.plan, p.request.nowMs, n);
    assert p.request.(nowMs := p.request.nowMs) == p.request;
  }

  lemma PlanSpans(limits: Limits, w: World, p: Asked)
    requires Safe(limits, w) && Kept(limits, w) && Built(limits, w.log, p) && w.live.Some?
    requires DocumentsToldApart(limits, p, Memory(limits, w))
             && DispatchRefusal(Memory(limits, w), w.live.value, p.plan).Ok?
    ensures Spans(limits, p.tables, Memory(limits, w), p.request) && p.live == w.live.value
            && p.plan.scope == p.request.scope
    ensures PlanSpec(limits, p.tables, w.live.value, p.request) == Ok(p.plan)
  {
    hide PlanSpec, DispatchRefusal, CommitAll, ValidTables, Encodable, Distinguished, PolicyDistinguished, AllStorable,
         AllAccepted, PlansStorable, Admits, Attached, PlansSound;
    var k :| 0 <= k <= |w.log| && p.tables == CommitAll(limits, EMPTY, w.log[..k]);
    PrefixStored(limits, w.log, k, p.request.scope);
    PrefixStored(limits, w.log, w.applied, p.request.scope);
    PlannedFrom(limits, p.tables, p.live, p.request, p.plan);
    AcceptedFacts(Memory(limits, w), w.live.value, p.plan);
  }
}
