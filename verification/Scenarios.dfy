/** Runs from an empty store that reach the corners the theorems name. One policy, one intent with one subject, and an
    observation that finds the subject missing. */
module Scenarios {
  import opened Bytes
  import opened Ordering
  import opened Model
  import opened Canonical
  import opened DocumentCodec
  import opened LineageCodec
  import opened StoreState
  import opened RecordSizes
  import opened Drift
  import opened Explain
  import opened Planner
  import opened PlanTheorems
  import opened Replan
  import opened Engine
  import opened EngineRuns
  import opened EngineSafety
  import opened LineageTheorems
  import opened RunTheorems

  // ---------------------------------------------------------------- the documents

  const SCOPE: Id := [115]
  const SUBJECT: Id := [98]
  const BOOT: BootId := Zeros(16)
  const LIVE: Live := Live(1, BOOT)
  const POLICY: Policy := Policy([112], 1, 10, true, true, true, true, true, true, true, [], [])
  const DRAFT: Intent := Intent([105], SCOPE, [100], 1, 1, RealEvidence, true, map[SUBJECT := Subject(true, map[])],
                                BLANK_DIGEST)
  const INTENT: Intent := DRAFT.(digest := IntentDigest(DRAFT))
  const REPORT: Submission := Submission([111], SCOPE, [114], 1, RealEvidence, true, true, map[])
  const SEEN: Observation := Stamped(REPORT, 1, 5)
  const REQUEST: Request := Request(SCOPE, None, 5)

  /** Limits that leave room for the documents of these runs, and for an attempt with one transition. */
  predicate Ample(limits: Limits) {
    && 1 <= limits.maxSubjectsPerDocument && 2 <= limits.maxObservationsPerScope && 2 <= limits.maxAttempts
    && 1 <= limits.maxTransitions && 1 <= limits.maxPlanActions && 323 <= limits.maxJournalPayloadBytes
  }

  /** And for the transitions that follow. */
  predicate Spacious(limits: Limits) {
    Ample(limits) && 407 <= limits.maxJournalPayloadBytes
  }

  lemma {:induction false} BoolsSize(flags: seq<bool>, k: seq<byte>)
    ensures |PutBools(flags, k)| == |flags| + |k|
  {
    hide LE;
    if flags != [] { BoolsSize(flags[1..], k); }
  }

  lemma OneKey(x: Id)
    ensures SortedKeys({x}) == [x]
  {
    var s := SortedKeys({x});
    assert |s| == 1 && s[0] in Elements(s);
  }

  lemma OneSubject(x: Id, k: seq<byte>)
    ensures |PutSubjects(map[x := Subject(true, map[])], k)| == 13 + |x| + |k|
  {
    hide LE;
    var m := map[x := Subject(true, map[])];
    OneKey(x);
    assert m.Keys == {x} && m[x].attributes.Keys == {};
    assert PutAttributes(map[], k) == PutU32(0, k);
    assert [x][1..] == [];
    assert PutSubjectEntries([x], m, k) == PutBytes(x, PutBool(true,
      PutAttributes(m[x].attributes, PutSubjectEntries([x][1..], m, k))));
  }

  lemma DocumentsFit(limits: Limits)
    requires Ample(limits)
    ensures Accepted(limits, PolicyPut(POLICY)) && Accepted(limits, EpochAdvance(1))
            && Accepted(limits, IntentCommit(INTENT))
  {
    hide LE, IntentDigest, PolicyDigest, PutBools, PutSubjects;
    var k := PutDigest(PolicyDigest(POLICY), []);
    BoolsSize(PolicyFlags(POLICY), PutU32(0, PutIds([], PutU32(0, PutIds([], k)))));
    OneSubject(SUBJECT, PutDigest(INTENT.digest, []));
  }

  lemma ReportFits(limits: Limits, s: Submission, epoch: nat, atMs: int)
    requires Ample(limits) && s.subjects == map[] && |s.observation| == |s.scope| == |s.reporter| == 1
    ensures Accepted(limits, ObservationCommit(Stamped(s, epoch, atMs)))
  {
    hide LE, ObservationDigest;
    var o := Stamped(s, epoch, atMs);
    assert o.subjects.Keys == {};
    assert |PutObservation(o, [])| <= 323;
  }

  // ---------------------------------------------------------------- one event after another

  /** A process that is up and whose writes succeed. */
  predicate Up(w: World) {
    w.live == Some(LIVE) && !w.failed && !w.closed && !w.breached && w.applied == |w.log|
  }

  function Run(limits: Limits, events: seq<Event>): World {
    RunFrom(limits, INITIAL, events)
  }

  lemma OneMore(limits: Limits, events: seq<Event>, e: Event)
    ensures Run(limits, events + [e]) == Next(limits, Run(limits, events), e)
  {
    hide Next, RunFrom;
    var all := events + [e];
    RunSplit(limits, INITIAL, all, |events|);
    assert all[..|events|] == events && all[..|events| + 1] == all;
  }

  lemma UpMemory(limits: Limits, w: World)
    requires Up(w)
    ensures Memory(limits, w) == TablesOf(limits, w)
  {
    hide CommitAll;
    assert w.log[..|w.log|] == w.log;
  }

  ghost predicate Takes(limits: Limits, entries: seq<Entry>) {
    |entries| <= 9 && forall i :: 0 <= i < |entries| ==> Accepted(limits, entries[i])
  }

  lemma TakesAll(limits: Limits, entries: seq<Entry>)
    requires Takes(limits, entries)
    ensures Reach(limits, entries) == |entries| <= 9
  {
    hide Accepted;
  }

  lemma NextDo(limits: Limits, w: World, op: Op, entries: seq<Entry>, cut: nat, fate: Fate)
    requires Up(w) && (op.DispatchPlan? ==> Held(w.plans, op.plan))
             && entries == EntriesOf(limits, TablesOf(limits, w), LIVE, op)
    ensures Next(limits, w, Do(op, cut, fate)) == Perform(limits, w, op, entries, cut, fate)
  {
    hide CommitAll, EntriesOf, Perform, Held;
    UpMemory(limits, w);
  }

  /** An operation whose records are all taken. */
  lemma Completes(limits: Limits, events: seq<Event>, op: Op, entries: seq<Entry>) returns (w: World)
    requires Up(Run(limits, events)) && (op.DispatchPlan? ==> Held(Run(limits, events).plans, op.plan))
    requires entries == EntriesOf(limits, TablesOf(limits, Run(limits, events)), LIVE, op) && Takes(limits, entries)
    ensures w == Run(limits, events + [Do(op, 9, Stops)]) && Up(w) && w.plans == Run(limits, events).plans
    ensures w.log == Run(limits, events).log + entries
    ensures TablesOf(limits, w) == CommitAll(limits, TablesOf(limits, Run(limits, events)), entries)
  {
    hide Run, CommitAll, EntriesOf, Held, Reach, Takes, Next;
    var before := Run(limits, events);
    OneMore(limits, events, Do(op, 9, Stops));
    NextDo(limits, before, op, entries, 9, Stops);
    TakesAll(limits, entries);
    assert entries[..|entries|] == entries;
    w := Perform(limits, before, op, entries, 9, Stops);
    assert !Breaches(op, entries, |entries|);
    CommitSplit(limits, EMPTY, NOTHING, before.log, entries);
  }

  lemma CommitOne(limits: Limits, t: Tables, e: Entry)
    ensures CommitAll(limits, t, [e]) == Commit(limits, t, e)
  {
    hide Commit;
    var es := [e];
    assert es[1..] == [];
  }

  lemma CommitTwo(limits: Limits, t: Tables, e: Entry, f: Entry)
    ensures CommitAll(limits, t, [e, f]) == Commit(limits, Commit(limits, t, e), f)
  {
    hide Commit;
    var es := [e, f];
    assert es[1..] == [f];
    CommitOne(limits, Commit(limits, t, e), f);
  }

  // ---------------------------------------------------------------- a store with a policy, an intent and an
  // observation

  /** The tables hold these documents and no fence. */
  predicate Base(t: Tables, stream: seq<Observation>) {
    && t.lastEpoch == 1 && t.policy == Some(POLICY) && t.fences == map[]
    && t.intents == map[SCOPE := INTENT] && t.observations == map[SCOPE := stream]
  }

  lemma StartsUp(limits: Limits) returns (events: seq<Event>)
    requires Ample(limits)
    ensures var w := Run(limits, events);
            && Up(w) && w.plans == {}
            && TablesOf(limits, w) == EMPTY.(lastEpoch := 1, policy := Some(POLICY))
  {
    hide CommitAll, Boot, Run, Next, Restarted, TablesOf;
    var e := Start(Some(POLICY), BOOT, 0, 9);
    events := [] + [e];
    OneMore(limits, [], e);
    CommitNothing(limits);
    BootsEmpty(limits);
    FirstStart(limits);
  }

  lemma FirstStart(limits: Limits)
    requires Ample(limits)
    ensures var w := Restarted(limits, INITIAL, Effect(Ok(LIVE), [PolicyPut(POLICY), EpochAdvance(1)]), 9);
            && Next(limits, INITIAL, Start(Some(POLICY), BOOT, 0, 9)) == w && Up(w) && w.plans == {}
            && TablesOf(limits, w) == EMPTY.(lastEpoch := 1, policy := Some(POLICY))
  {
    hide CommitAll, Accepted, Boot, EntriesOf, PlanSpec, Reach;
    var entries := [PolicyPut(POLICY), EpochAdvance(1)];
    CommitNothing(limits);
    BootsEmpty(limits);
    DocumentsFit(limits);
    TakesAll(limits, entries);
    assert entries[..2] == entries && [] + entries == entries;
    CommitTwo(limits, EMPTY, PolicyPut(POLICY), EpochAdvance(1));
  }

  lemma CommitNothing(limits: Limits)
    ensures TablesOf(limits, INITIAL) == EMPTY && Run(limits, []) == INITIAL
  {
    hide Next;
  }

  lemma BootsEmpty(limits: Limits)
    ensures Boot(limits, EMPTY, Some(POLICY), BOOT, 0) == Effect(Ok(LIVE), [PolicyPut(POLICY), EpochAdvance(1)])
  {
    assert Elements([]) == {} && SortUnique([]) == [];
    assert CanonicalisePolicy(limits, POLICY) == Ok(POLICY);
    assert LiveIds(EMPTY.attempts) == {};
  }

  lemma Opens(limits: Limits) returns (events: seq<Event>)
    requires Ample(limits)
    ensures var w := Run(limits, events);
            && Up(w) && w.plans == {} && Base(TablesOf(limits, w), [SEEN])
            && TablesOf(limits, w).attempts == map[] && TablesOf(limits, w).nextAttempt == 1
  {
    hide CommitAll, Accepted, Run, IntentDigest, ObservationDigest, KeepLast, TablesOf, CommitIntentOp, RecordOp;
    var first := StartsUp(limits);
    var t := TablesOf(limits, Run(limits, first));
    IntentGoesIn(limits, t);
    DocumentsFit(limits);
    var w := Completes(limits, first, CommitIntent(DRAFT), [IntentCommit(INTENT)]);
    CommitOne(limits, t, IntentCommit(INTENT));
    var second := first + [Do(CommitIntent(DRAFT), 9, Stops)];
    var u := TablesOf(limits, w);
    ReportGoesIn(limits, u, REPORT, 5);
    ReportFits(limits, REPORT, 1, 5);
    w := Completes(limits, second, RecordObservation(REPORT, 5, 5), [ObservationCommit(SEEN)]);
    CommitOne(limits, u, ObservationCommit(SEEN));
    StreamOfOne(limits, SEEN);
    events := second + [Do(RecordObservation(REPORT, 5, 5), 9, Stops)];
  }

  lemma StreamOfOne(limits: Limits, o: Observation)
    requires Ample(limits)
    ensures KeepLast([] + [o], limits.maxObservationsPerScope) == [o]
  {}

  lemma IntentGoesIn(limits: Limits, t: Tables)
    requires Ample(limits) && t.intents == map[]
    ensures CommitIntentOp(limits, t, DRAFT).entries == [IntentCommit(INTENT)]
  {
    hide IntentDigest;
    OneKey(SUBJECT);
    SortedKeysIn(DRAFT.subjects);
    assert DRAFT.subjects.Keys == {SUBJECT};
    assert [SUBJECT][1..] == [];
    assert ValidateState(limits, map[]).Ok?;
    assert ValidateSubjects(limits, DRAFT.subjects, [SUBJECT]) == Ok(true);
  }

  /** The first report of a reporter is committed. */
  lemma ReportGoesIn(limits: Limits, t: Tables, s: Submission, atMs: int)
    requires Ample(limits) && s.subjects == map[] && s.observation != [] && s.scope != [] && s.reporter != []
             && atMs != 0
    requires forall o :: o in Stream(t, s.scope) ==> o.reporter != s.reporter
    ensures RecordOp(limits, t, LIVE, s, atMs, atMs).entries == [ObservationCommit(Stamped(s, 1, atMs))]
  {
    hide Stamped, Stream;
    assert s.subjects.Keys == {};
    SortedKeysIn(s.subjects);
    assert ValidateSubjects(limits, s.subjects, []) == Ok(true);
  }

  // ---------------------------------------------------------------- the plan

  /** The plan these documents lead to: apply the one missing subject. */
  ghost predicate PlanFacts(plan: Plan) {
    && plan.scope == SCOPE && plan.live == LIVE && plan.policyDigest == PolicyDigest(POLICY)
    && plan.evidence.intent == Some(INTENT) && plan.evidence.observation == Some(SEEN)
    && plan.evidence.freshness == Fresh
    && |plan.decisions| == 1
    && (var d := plan.decisions[0];
        && d.disposition == Actionable && d.scope == SCOPE && d.subject == SUBJECT
        && d.authority == AuthorityFor(LIVE, POLICY, plan.evidence))
  }

  lemma ActsOnMissing(c: Context, r: DriftRecord)
    requires c.policy == c.stored == POLICY && c.live == LIVE && c.fences == map[] && r.drift == Missing
    requires c.evidence.intent == Some(INTENT) && c.evidence.observation == Some(SEEN) && c.evidence.freshness == Fresh
    ensures DecisionFor(c, r).disposition == Actionable
            && DecisionFor(c, r).authority == AuthorityFor(LIVE, POLICY, c.evidence)
  {
    hide PolicyDigest, IntentDigest, ObservationDigest, IdempotencyKey, DecisionSteps, FirstSteps;
    assert !FenceHolds(c.fences, r.scope, r.subject, LIVE.epoch);
    assert FailedComponents(AuthorityFor(LIVE, POLICY, c.evidence), LIVE, POLICY, true, false) == {};
  }

  lemma OneMissing(evidence: EvidenceClass)
    ensures UnionSubjects(INTENT, SEEN) == [SUBJECT] && Named(INTENT, SEEN, [SUBJECT])
    ensures var records := SubjectDrifts(SCOPE, INTENT, SEEN, POLICY, evidence, [SUBJECT]);
            |records| == 1 && records[0].drift == Missing && records[0].scope == SCOPE && records[0].subject == SUBJECT
  {
    hide IntentDigest, ObservationDigest, SideDeltas;
    assert INTENT.subjects.Keys + SEEN.subjects.Keys == {SUBJECT};
    OneKey(SUBJECT);
    assert [SUBJECT][..0] == [];
    assert SubjectDrifts(SCOPE, INTENT, SEEN, POLICY, evidence, []) == [];
  }

  lemma PlansOne(limits: Limits, t: Tables) returns (plan: Plan)
    requires Ample(limits) && Base(t, [SEEN])
    ensures PlanSpec(limits, t, LIVE, REQUEST) == Ok(plan) && PlanFacts(plan)
  {
    hide ClassifySpec, Decisions, VerdictOf, ScopeStep, FirstSteps, DecisionFor, AuthorityFor, PolicyDigest,
         IntentDigest, ObservationDigest, SubjectDrifts, UnionSubjects, SelectObservation, SelectIntent, Named;
    var input := InputFor(t, LIVE, POLICY, SCOPE, 5);
    assert Stream(t, SCOPE) == [SEEN] && CandidateIntents(t, SCOPE) == [INTENT];
    InScope(input);
    EngineEvidence(t, LIVE, POLICY, SCOPE, 5);
    OneObservation(SEEN);
    DecidableReport(input);
    var report := ClassifySpec(input).value;
    OneMissing(report.evidence.evidence);
    plan := PlanSpec(limits, t, LIVE, REQUEST).value;
    var c := ContextFor(limits, t, LIVE, POLICY, SCOPE, report.evidence);
    DecisionAt(c, report.records, 0);
    DecisionSubject(c, report.records[0]);
    ActsOnMissing(c, report.records[0]);
  }

  lemma Asks(limits: Limits) returns (events: seq<Event>, plan: Plan)
    requires Ample(limits)
    ensures var w := Run(limits, events);
            && Up(w) && Held(w.plans, plan) && PlanFacts(plan) && Base(TablesOf(limits, w), [SEEN])
            && TablesOf(limits, w).attempts == map[] && TablesOf(limits, w).nextAttempt == 1
            && PlanSpec(limits, TablesOf(limits, w), LIVE, REQUEST) == Ok(plan)
  {
    hide CommitAll, Run, PlanSpec, EntriesOf, Boot, Base, PlanFacts;
    var first := Opens(limits);
    var w := Run(limits, first);
    plan := PlansOne(limits, TablesOf(limits, w));
    UpMemory(limits, w);
    OneMore(limits, first, Ask(REQUEST));
    events := first + [Ask(REQUEST)];
    assert Asked(REQUEST, TablesOf(limits, w), LIVE, plan) in Run(limits, events).plans;
  }

  // ---------------------------------------------------------------- dispatching it

  lemma DispatchesOne(limits: Limits, t: Tables, plan: Plan, clock: int)
    requires Base(t, [SEEN]) && PlanFacts(plan) && FindLive(t.attempts, plan.decisions[0].key, 1).None?
    ensures var a := NewAttempt(t, LIVE, plan.decisions[0], clock);
            DispatchOp(limits, t, LIVE, plan, clock)
            == Effect(Ok(Dispatch([ActionFor(a, INTENT.subjects)], 0, 0)), [AttemptIssued(a)])
  {
    hide PolicyDigest, IntentDigest, ObservationDigest, SelectObservation, FindLive, Commit, NewAttempt, ActionFor,
         AuthorityFor;
    OneObservation(SEEN);
    assert Stream(t, SCOPE) == [SEEN];
    assert DispatchRefusal(t, LIVE, plan).Ok?;
    var d, a := plan.decisions[0], NewAttempt(t, LIVE, plan.decisions[0], clock);
    assert !FenceHolds(t.fences, d.scope, d.subject, LIVE.epoch);
    assert plan.decisions[1..] == [];
    var rest := DispatchFrom(limits, Commit(limits, t, AttemptIssued(a)), LIVE, INTENT.subjects, plan.decisions[1..],
                             clock);
    assert rest == Issue([], [], 0, 0);
    var x, e := ActionFor(a, INTENT.subjects), AttemptIssued(a);
    assert [x] + rest.actions == [x] && [e] + rest.entries == [e];
    assert DispatchFrom(limits, t, LIVE, INTENT.subjects, plan.decisions, clock) == Issue([x], [e], 0, 0);
  }

  /** An attempt of these runs. */
  ghost predicate Ours(a: Attempt, id: nat, plan: Plan) {
    && PlanFacts(plan) && a.id == id && a.key == plan.decisions[0].key && a.scope == SCOPE && a.subject == SUBJECT
    && a.epoch == 1 && a.boot == BOOT && a.authority == plan.decisions[0].authority && |a.transitions| <= 3
  }

  lemma OursFits(limits: Limits, a: Attempt, id: nat, plan: Plan, o: Outcome)
    requires Ample(limits) && Ours(a, id, plan)
    ensures 281 + 42 * |a.transitions| <= limits.maxJournalPayloadBytes <==> Accepted(limits, AttemptIssued(a))
    ensures Accepted(limits, AttemptMoved(a)) <==> Accepted(limits, AttemptIssued(a))
    ensures o.scope == SCOPE && o.subject == SUBJECT ==> Accepted(limits, OutcomeCommit(o))
  {
    hide PutAttempt, PutOutcome, PolicyDigest, IntentDigest, ObservationDigest;
    AttemptSize(a);
    OutcomeSize(o);
  }

  lemma IssuesOne(limits: Limits, t: Tables, plan: Plan, clock: int)
    requires Ample(limits) && PlanFacts(plan) && 0 < t.nextAttempt < 3 && |t.attempts| <= 1
    ensures var a := NewAttempt(t, LIVE, plan.decisions[0], clock);
            var u := Commit(limits, t, AttemptIssued(a));
            && Ours(a, t.nextAttempt, plan) && a.state == Dispatched && |a.transitions| == 1
            && u.attempts == t.attempts[a.id := a] && u.nextAttempt == t.nextAttempt + 1
            && (Base(t, [SEEN]) ==> Base(u, [SEEN]))
  {
    hide PolicyDigest, IntentDigest, ObservationDigest, AuthorityFor, Ours, Base, NewAttempt, Commit;
    NewAttemptIsOurs(t, plan, clock);
    TakesAttempt(limits, t, NewAttempt(t, LIVE, plan.decisions[0], clock));
  }

  lemma NewAttemptIsOurs(t: Tables, plan: Plan, clock: int)
    requires PlanFacts(plan) && 0 < t.nextAttempt
    ensures var a := NewAttempt(t, LIVE, plan.decisions[0], clock);
            Ours(a, t.nextAttempt, plan) && a.id == t.nextAttempt && a.state == Dispatched && |a.transitions| == 1
  {
    hide PolicyDigest, IntentDigest, ObservationDigest, AuthorityFor;
  }

  lemma TakesAttempt(limits: Limits, t: Tables, a: Attempt)
    requires Ample(limits) && 0 < t.nextAttempt < 3 && |t.attempts| <= 1 && a.id == t.nextAttempt
    ensures var u := Commit(limits, t, AttemptIssued(a));
            && u.attempts == t.attempts[a.id := a] && u.nextAttempt == t.nextAttempt + 1
            && (Base(t, [SEEN]) ==> Base(u, [SEEN]))
  {
    hide IntentDigest, ObservationDigest;
    assert |t.attempts[a.id := a]| <= 2;
  }

  lemma OneDecision(plan: Plan)
    requires PlanFacts(plan)
    ensures |plan.decisions| == 1
  {}

  lemma EntriesOfDispatch(limits: Limits, t: Tables, plan: Plan, clock: int)
    ensures EntriesOf(limits, t, LIVE, DispatchPlan(plan, clock)) == DispatchOp(limits, t, LIVE, plan, clock).entries
  {
    hide DispatchOp;
  }

  /** Dispatching the plan opens one attempt, unless one is open. */
  lemma DispatchStep(limits: Limits, t: Tables, plan: Plan, clock: int) returns (a: Attempt)
    requires Ample(limits) && Base(t, [SEEN]) && PlanFacts(plan) && 0 < t.nextAttempt < 3 && |t.attempts| <= 1
    requires FindLive(t.attempts, plan.decisions[0].key, 1).None?
    ensures EntriesOf(limits, t, LIVE, DispatchPlan(plan, clock)) == [AttemptIssued(a)]
            && Takes(limits, [AttemptIssued(a)])
    ensures var u := CommitAll(limits, t, [AttemptIssued(a)]);
            Base(u, [SEEN]) && u.attempts == t.attempts[a.id := a] && u.nextAttempt == t.nextAttempt + 1
    ensures Ours(a, t.nextAttempt, plan) && a.state == Dispatched && |a.transitions| == 1
  {
    hide CommitAll, DispatchOp, EntriesOf, Base, NewAttempt, Commit, FindLive, Accepted, Ours, ActionFor, AuthorityFor;
    a := NewAttempt(t, LIVE, plan.decisions[0], clock);
    EntriesOfDispatch(limits, t, plan, clock);
    DispatchesOne(limits, t, plan, clock);
    IssuesOne(limits, t, plan, clock);
    OursFits(limits, a, t.nextAttempt, plan, OutcomeOf(a, Failed, 0, false, 0, 0));
    CommitOne(limits, t, AttemptIssued(a));
  }

  /** The first attempt is open. */
  lemma Dispatches(limits: Limits) returns (events: seq<Event>, plan: Plan, a: Attempt)
    requires Ample(limits)
    ensures var w := Run(limits, events);
            && Up(w) && Held(w.plans, plan) && Base(TablesOf(limits, w), [SEEN])
            && TablesOf(limits, w).attempts == map[1 := a] && TablesOf(limits, w).nextAttempt == 2
    ensures Ours(a, 1, plan) && a.state == Dispatched && |a.transitions| == 1
  {
    hide CommitAll, Run, PlanSpec, EntriesOf, Base, Held, Takes, Ours, TablesOf, AuthorityFor, Ample;
    var first;
    first, plan := Asks(limits);
    var t := TablesOf(limits, Run(limits, first));
    a := DispatchStep(limits, t, plan, 6);
    var w := Completes(limits, first, DispatchPlan(plan, 6), [AttemptIssued(a)]);
    events := first + [Do(DispatchPlan(plan, 6), 9, Stops)];
    OursId(a, 1, plan);
  }

  lemma OursId(a: Attempt, id: nat, plan: Plan)
    requires Ours(a, id, plan)
    ensures a.id == id
  {}

  // ---------------------------------------------------------------- reporting on an attempt

  function Report(a: Attempt, target: AttemptState, atMs: int): Completion {
    Completion(a.id, a.key, 1, BOOT, target, NO_REASON, atMs)
  }

  /** A report on an attempt of these runs, accepted. */
  lemma CompletesOne(limits: Limits, t: Tables, plan: Plan, id: nat, target: AttemptState, atMs: int)
    returns (b: Attempt, o: Outcome)
    requires id in t.attempts && Ours(t.attempts[id], id, plan) && TransitionLegal(t.attempts[id].state, target)
             && atMs != 0
    requires |t.attempts[id].transitions| <= 2
    ensures var effect := CompleteOp(limits, t, LIVE, Report(t.attempts[id], target, atMs), atMs);
            && effect.result == Ok(o) && o.verified == (target == Verified) && o.verifiedGeneration == 0
            && effect.entries == (if IsTerminal(target) then [AttemptMoved(b), OutcomeCommit(o)] else [AttemptMoved(b)])
    ensures Ours(b, id, plan) && b.state == target && |b.transitions| <= |t.attempts[id].transitions| + 1
    ensures o.scope == SCOPE && o.subject == SUBJECT
  {
    hide PlanFacts;
    var c := Report(t.attempts[id], target, atMs);
    var effect := CompleteOp(limits, t, LIVE, c, atMs);
    LegalMoveIsLive(t.attempts[id].state, target);
    b, o := effect.entries[0].moved, effect.result.value;
  }

  lemma MovesOne(limits: Limits, t: Tables, b: Attempt, o: Outcome, stream: seq<Observation>)
    requires Ample(limits) && Base(t, stream) && b.id in t.attempts && |t.attempts| <= 2 && b.id < t.nextAttempt < 4
    ensures var u := Commit(limits, t, AttemptMoved(b));
            Base(u, stream) && u.attempts == t.attempts[b.id := b] && u.nextAttempt == t.nextAttempt
    ensures var u := Commit(limits, Commit(limits, t, AttemptMoved(b)), OutcomeCommit(o));
            Base(u, stream) && u.attempts == t.attempts[b.id := b] && u.nextAttempt == t.nextAttempt
  {
    hide IntentDigest, ObservationDigest, Base, Commit;
    MovesTables(limits, t, b, stream);
    OutcomeTables(limits, Commit(limits, t, AttemptMoved(b)), o, stream);
  }

  lemma MovesTables(limits: Limits, t: Tables, b: Attempt, stream: seq<Observation>)
    requires Ample(limits) && Base(t, stream) && b.id in t.attempts && |t.attempts| <= 2 && b.id < t.nextAttempt < 4
    ensures var u := Commit(limits, t, AttemptMoved(b));
            Base(u, stream) && u.attempts == t.attempts[b.id := b] && u.nextAttempt == t.nextAttempt
  {
    hide IntentDigest, ObservationDigest, KeepLast;
    assert t.attempts[b.id := b].Keys == t.attempts.Keys;
    assert |t.attempts[b.id := b]| == |t.attempts[b.id := b].Keys| == |t.attempts.Keys| == |t.attempts|;
  }

  lemma OutcomeTables(limits: Limits, t: Tables, o: Outcome, stream: seq<Observation>)
    requires Base(t, stream)
    ensures var u := Commit(limits, t, OutcomeCommit(o));
            Base(u, stream) && u.attempts == t.attempts && u.nextAttempt == t.nextAttempt
  {
    hide IntentDigest, ObservationDigest, KeepLast;
  }

  lemma EntriesOfComplete(limits: Limits, t: Tables, c: Completion, clock: int)
    ensures EntriesOf(limits, t, LIVE, Complete(c, clock)) == CompleteOp(limits, t, LIVE, c, clock).entries
  {
    hide CompleteOp;
  }

  /** The attempt moves; its outcome follows if it has ended. */
  lemma CompleteStep(limits: Limits, t: Tables, plan: Plan, id: nat, target: AttemptState, atMs: int,
                     stream: seq<Observation>)
    returns (b: Attempt, entries: seq<Entry>)
    requires Spacious(limits) && Base(t, stream) && id in t.attempts && |t.attempts| <= 2 && id < t.nextAttempt < 4
    requires Ours(t.attempts[id], id, plan) && TransitionLegal(t.attempts[id].state, target) && atMs != 0
    requires |t.attempts[id].transitions| <= 2
    ensures EntriesOf(limits, t, LIVE, Complete(Report(t.attempts[id], target, atMs), atMs)) == entries
            && Takes(limits, entries)
    ensures entries != [] && entries[0] == AttemptMoved(b)
    ensures var u := CommitAll(limits, t, entries);
            Base(u, stream) && u.attempts == t.attempts[id := b] && u.nextAttempt == t.nextAttempt
    ensures Ours(b, id, plan) && b.state == target && |b.transitions| <= |t.attempts[id].transitions| + 1
  {
    hide CommitAll, CompleteOp, EntriesOf, Base, Commit, Accepted, Ours, TransitionLegal, Report;
    var o;
    b, o := CompletesOne(limits, t, plan, id, target, atMs);
    OursId(b, id, plan);
    EntriesOfComplete(limits, t, Report(t.attempts[id], target, atMs), atMs);
    OursFits(limits, b, id, plan, o);
    MovesOne(limits, t, b, o, stream);
    CommitOne(limits, t, AttemptMoved(b));
    CommitTwo(limits, t, AttemptMoved(b), OutcomeCommit(o));
    entries := if IsTerminal(target) then [AttemptMoved(b), OutcomeCommit(o)] else [AttemptMoved(b)];
  }

  // ---------------------------------------------------------------- a retry that cannot be verified

  const SECOND: Submission := Submission([119], SCOPE, [118], 2, RealEvidence, true, true, map[])
  const SEEN_LATER: Observation := Stamped(SECOND, 1, 9)

  /** The first attempt failed, its retry is open. */
  lemma Retries(limits: Limits) returns (events: seq<Event>, plan: Plan, a: Attempt, b: Attempt)
    requires Spacious(limits)
    ensures var w := Run(limits, events);
            && Up(w) && Base(TablesOf(limits, w), [SEEN]) && TablesOf(limits, w).attempts == map[1 := a, 2 := b]
            && TablesOf(limits, w).nextAttempt == 3
    ensures Ours(a, 1, plan) && a.state == Failed && Ours(b, 2, plan) && b.state == Dispatched && |b.transitions| == 1
  {
    hide CommitAll, Run, EntriesOf, Base, Held, Takes, TablesOf, AuthorityFor, Ample, PlanFacts, Report, FindLive;
    var first, a0, entries;
    first, plan, a0 := Dispatches(limits);
    var t := TablesOf(limits, Run(limits, first));
    a, entries := CompleteStep(limits, t, plan, 1, Failed, 7, [SEEN]);
    var fail := Complete(Report(a0, Failed, 7), 7);
    var w := Completes(limits, first, fail, entries);
    var second := first + [Do(fail, 9, Stops)];
    OneDecision(plan);
    NoneLeft(a, plan);
    var u := TablesOf(limits, w);
    b := DispatchStep(limits, u, plan, 8);
    w := Completes(limits, second, DispatchPlan(plan, 8), [AttemptIssued(b)]);
    events := second + [Do(DispatchPlan(plan, 8), 9, Stops)];
    assert map[1 := a0][1 := a] == map[1 := a];
  }

  lemma NoneLeft(a: Attempt, plan: Plan)
    requires |plan.decisions| == 1 && a.state == Failed
    ensures FindLive(map[1 := a], plan.decisions[0].key, 1).None?
  {}

  /** A failed attempt, its applied retry, and a newer observation from a verifier: evidence acceptable for the retry is
      refused, because it reaches the attempt that failed. */
  lemma RetryExhibited(limits: Limits) returns (events: seq<Event>, v: Verification)
    requires Spacious(limits)
    ensures var w := Run(limits, events);
            var t := Memory(limits, w);
            && w.live == Some(LIVE) && Acceptable(t, LIVE, v, 10, 2)
            && 1 in WithKey(t.attempts, v.key) && t.attempts[1].state == Failed
            && VerifyOp(limits, t, LIVE, v, 10).result.Refused? && VerifyOp(limits, t, LIVE, v, 10).entries == []
  {
    hide CommitAll, Run, EntriesOf, Base, Takes, TablesOf, Ample, PlanFacts, Report, VerifyOp, Acceptable, Memory,
         Stamped;
    var first, plan, a, b := Retries(limits);
    var t := TablesOf(limits, Run(limits, first));
    var c, entries := CompleteStep(limits, t, plan, 2, Applied, 9, [SEEN]);
    var apply := Complete(Report(b, Applied, 9), 9);
    var w := Completes(limits, first, apply, entries);
    var second := first + [Do(apply, 9, Stops)];
    assert map[1 := a, 2 := b][2 := c] == map[1 := a, 2 := c];
    var u := TablesOf(limits, w);
    SecondReport(limits, u);
    w := Completes(limits, second, RecordObservation(SECOND, 9, 9), [ObservationCommit(SEEN_LATER)]);
    events := second + [Do(RecordObservation(SECOND, 9, 9), 9, Stops)];
    UpMemory(limits, w);
    v := Verification(a.key, SCOPE, SUBJECT, [118], [97], [119], 2, 1, 10, true);
    EvidenceForRetry(TablesOf(limits, w), plan, a, c, v);
    RetryCannotBeVerified(limits, TablesOf(limits, w), LIVE, v, 10, 1, 2);
  }

  lemma SecondReport(limits: Limits, t: Tables)
    requires Ample(limits) && Base(t, [SEEN])
    ensures EntriesOf(limits, t, LIVE, RecordObservation(SECOND, 9, 9)) == [ObservationCommit(SEEN_LATER)]
    ensures Takes(limits, [ObservationCommit(SEEN_LATER)])
    ensures var u := CommitAll(limits, t, [ObservationCommit(SEEN_LATER)]);
            Base(u, [SEEN, SEEN_LATER]) && u.attempts == t.attempts
  {
    hide CommitAll, Accepted, IntentDigest, ObservationDigest, RecordOp;
    assert SEEN.reporter == [114];
    ReportGoesIn(limits, t, SECOND, 9);
    ReportFits(limits, SECOND, 1, 9);
    CommitOne(limits, t, ObservationCommit(SEEN_LATER));
    assert [SEEN] + [SEEN_LATER] == [SEEN, SEEN_LATER];
  }

  lemma EvidenceForRetry(t: Tables, plan: Plan, a: Attempt, b: Attempt, v: Verification)
    requires Base(t, [SEEN, SEEN_LATER]) && t.attempts == map[1 := a, 2 := b]
    requires Ours(a, 1, plan) && Ours(b, 2, plan) && b.state == Applied
    requires v == Verification(a.key, SCOPE, SUBJECT, [118], [97], [119], 2, 1, 10, true)
    ensures Acceptable(t, LIVE, v, 10, 2) && 1 in WithKey(t.attempts, v.key)
            && forall x :: x in WithKey(t.attempts, v.key) ==> 1 <= x
  {
    hide IntentDigest, ObservationDigest, PolicyDigest;
    var stream := [SEEN, SEEN_LATER];
    assert Stream(t, SCOPE) == stream;
    assert SEEN.reporter == [114] && stream[1..] == [SEEN_LATER];
    assert FirstSame(stream[1..], [118], [119], 2) == Some(SEEN_LATER);
    assert FirstSame(stream, [118], [119], 2) == Some(SEEN_LATER);
    assert b.authority.observationGeneration == 1;
  }

  // ---------------------------------------------------------------- a fence that is not carried through

  const FENCE: Fence := Fence([102], SCOPE, [], 2, NO_REASON, [], 7)

  /** The records of the fence on the one open attempt. */
  lemma FenceStep(limits: Limits, t: Tables, plan: Plan, a: Attempt) returns (b: Attempt, o: Outcome)
    requires t.attempts == map[1 := a] && Ours(a, 1, plan) && a.state == Dispatched && |a.transitions| == 1
    ensures EntriesOf(limits, t, LIVE, PutFence(FENCE, 7)) == [FencePut(FENCE), AttemptMoved(b), OutcomeCommit(o)]
    ensures Ours(b, 1, plan) && |b.transitions| == (if limits.maxTransitions <= 1 then 1 else 2)
  {
    hide PlanFacts, PutFenceOp, CloseEntries;
    var es := CloseEntries(limits, LIVE, ByFence, a, 7);
    FenceRecords(limits, t, a, es);
    CloseShape(limits, LIVE, ByFence, a, 7);
    b, o := es[0].moved, es[1].outcome;
    ClosedTransitions(limits, a);
    assert [FencePut(FENCE)] + es == [FencePut(FENCE), AttemptMoved(b), OutcomeCommit(o)];
  }

  lemma ClosedTransitions(limits: Limits, a: Attempt)
    requires |a.transitions| == 1
    ensures var es := CloseEntries(limits, LIVE, ByFence, a, 7);
            es[0].AttemptMoved? && |es[0].moved.transitions| == (if limits.maxTransitions <= 1 then 1 else 2)
  {}

  lemma FenceRecords(limits: Limits, t: Tables, a: Attempt, es: seq<Entry>)
    requires t.attempts == map[1 := a] && a.scope == SCOPE && a.epoch == 1 && a.state == Dispatched
    requires es == CloseEntries(limits, LIVE, ByFence, a, 7)
    ensures EntriesOf(limits, t, LIVE, PutFence(FENCE, 7)) == [FencePut(FENCE)] + es
  {
    hide CloseEntries, CloseAll, Victims, SortedIds, ValidFence;
    OneVictim(t, a);
    OneId(1);
    ClosesOne(limits, t.attempts, a, es);
    FenceIsValid();
    assert FENCE.(createdMs := Stamp(FENCE.createdMs, 7)) == FENCE;
  }

  lemma FenceIsValid()
    ensures ValidFence(FENCE)
  {}

  lemma OneVictim(t: Tables, a: Attempt)
    requires t.attempts == map[1 := a] && a.scope == SCOPE && a.epoch == 1 && a.state == Dispatched
    ensures Victims(t.attempts, FENCE) == {1}
  {}

  lemma ClosesOne(limits: Limits, attempts: map<nat, Attempt>, a: Attempt, es: seq<Entry>)
    requires attempts == map[1 := a] && es == CloseEntries(limits, LIVE, ByFence, a, 7)
    ensures CloseAll(limits, LIVE, ByFence, attempts, [1], 7) == es
  {
    hide CloseEntries;
    assert [1][1..] == [] && es + [] == es;
    assert CloseAll(limits, LIVE, ByFence, attempts, [], 7) == [];
  }

  lemma OneId(x: nat)
    ensures SortedIds({x}) == [x]
  {
    var s := SortedIds({x});
    assert |s| == 1 && s[0] in s;
  }

  lemma FenceFits(limits: Limits)
    requires Ample(limits)
    ensures Accepted(limits, FencePut(FENCE))
  {
    hide LE;
  }

  /** With the fence in force and the attempt still open, the attempt is under the fence. */
  lemma StaysOpen(limits: Limits, t: Tables, a: Attempt, plan: Plan)
    requires t.attempts == map[1 := a] && Ours(a, 1, plan) && a.state == Dispatched
    ensures var u := CommitAll(limits, t, [FencePut(FENCE)]); !NoneRevoked(u.attempts, u.fences)
  {
    hide PlanFacts;
    CommitOne(limits, t, FencePut(FENCE));
    assert ValidFence(FENCE);
    var u := Commit(limits, t, FencePut(FENCE));
    assert 1 in u.attempts && FENCE.id in u.fences && Revoked(u.fences[FENCE.id], u.attempts[1]);
  }

  /** The process is up, a fence is in force, and an attempt it covers is open. */
  ghost predicate HeldUnderFence(limits: Limits, w: World) {
    w.live == Some(LIVE) && w.breached && !NoneRevoked(Memory(limits, w).attempts, Memory(limits, w).fences)
  }

  /** What one taken record of the fence installation leaves. */
  lemma OnlyTheFence(limits: Limits, events: seq<Event>, entries: seq<Entry>, cut: nat, fate: Fate)
    requires Up(Run(limits, events))
    requires EntriesOf(limits, TablesOf(limits, Run(limits, events)), LIVE, PutFence(FENCE, 7)) == entries
    requires |entries| == 3 && entries[0] == FencePut(FENCE) && Smaller(cut, Reach(limits, entries)) == 1
    requires cut == 1 && Reach(limits, entries) > 1 ==> fate == Fails(false)
    requires var u := CommitAll(limits, TablesOf(limits, Run(limits, events)), [FencePut(FENCE)]);
             !NoneRevoked(u.attempts, u.fences)
    ensures var w := Run(limits, events + [Do(PutFence(FENCE, 7), cut, fate)]);
            HeldUnderFence(limits, w) && w.failed == (Reach(limits, entries) > 1)
  {
    hide Run, CommitAll, EntriesOf, Reach, NoneRevoked, Next;
    var before := Run(limits, events);
    OneMore(limits, events, Do(PutFence(FENCE, 7), cut, fate));
    NextDo(limits, before, PutFence(FENCE, 7), entries, cut, fate);
    assert entries[..1] == [FencePut(FENCE)];
    var w := Run(limits, events + [Do(PutFence(FENCE, 7), cut, fate)]);
    assert AppliedLog(w) == before.log + [FencePut(FENCE)];
    CommitSplit(limits, EMPTY, NOTHING, before.log, [FencePut(FENCE)]);
  }

  /** The write that would end the attempt fails after the fence was written: the process goes on, holding an open
      attempt under a fence in force. */
  lemma FailedFenceExhibited(limits: Limits) returns (events: seq<Event>)
    requires Spacious(limits)
    ensures HeldUnderFence(limits, Run(limits, events)) && Run(limits, events).failed
  {
    hide Run, CommitAll, EntriesOf, NoneRevoked, Base, Ours, Accepted, HeldUnderFence, TablesOf;
    var first, plan, a := Dispatches(limits);
    var t := TablesOf(limits, Run(limits, first));
    var b, o := FenceStep(limits, t, plan, a);
    var entries := [FencePut(FENCE), AttemptMoved(b), OutcomeCommit(o)];
    FenceFits(limits);
    OursFits(limits, b, 1, plan, o);
    StaysOpen(limits, t, a, plan);
    assert Reach(limits, entries) > 1;
    OnlyTheFence(limits, first, entries, 1, Fails(false));
    events := first + [Do(PutFence(FENCE, 7), 1, Fails(false))];
  }

  /** Every write succeeds, but the attempt with one more transition is over the configured bound: the journal refuses
      the record, the process goes on writing, and the attempt stays open under the fence. */
  lemma RefusedFenceExhibited(limits: Limits) returns (events: seq<Event>)
    requires Ample(limits) && limits.maxJournalPayloadBytes < 365 && 2 <= limits.maxTransitions
    ensures HeldUnderFence(limits, Run(limits, events)) && !Run(limits, events).failed
  {
    hide Run, CommitAll, EntriesOf, NoneRevoked, Base, Ours, Accepted, HeldUnderFence, TablesOf;
    var first, plan, a := Dispatches(limits);
    var t := TablesOf(limits, Run(limits, first));
    var b, o := FenceStep(limits, t, plan, a);
    var entries := [FencePut(FENCE), AttemptMoved(b), OutcomeCommit(o)];
    FenceFits(limits);
    OursFits(limits, b, 1, plan, o);
    StaysOpen(limits, t, a, plan);
    assert Reach(limits, entries) == 1;
    OnlyTheFence(limits, first, entries, 9, Stops);
    events := first + [Do(PutFence(FENCE, 7), 9, Stops)];
  }

  // ---------------------------------------------------------------- other corners

  /** Long after its evidence went stale the plan is still dispatched, and its action issued, while a plan built then
      acts on nothing. */
  lemma StaleDispatchExhibited(limits: Limits) returns (events: seq<Event>, plan: Plan)
    requires Ample(limits)
    ensures var w := Run(limits, events);
            var t := Memory(limits, w);
            var effect := DispatchOp(limits, t, LIVE, plan, 100);
            && w.live == Some(LIVE) && Held(w.plans, plan) && effect.result.Ok?
            && |effect.result.value.actions| == |effect.entries| == 1
            && !FreshAt(t, plan, 100) && !ActsOn(PlanSpec(limits, t, LIVE, REQUEST.(nowMs := 100)), 0)
  {
    hide Run, CommitAll, PlanSpec, DispatchOp, Held, Memory, TablesOf, FindLive, NewAttempt, ActionFor, AuthorityFor,
         IntentDigest, ObservationDigest, PolicyDigest;
    events, plan := Asks(limits);
    var t := TablesOf(limits, Run(limits, events));
    UpMemory(limits, Run(limits, events));
    NothingOpen(plan.decisions[0].key);
    DispatchesOne(limits, t, plan, 100);
    OneObservation(SEEN);
    assert Stream(t, SCOPE) == [SEEN];
    assert EvaluateFreshness(SEEN, POLICY, 1, 100) == Expired;
    var again := PlanSpec(limits, t, LIVE, REQUEST.(nowMs := 100));
    if again.Ok? && 0 < |again.value.decisions| {
      StaleReplanActsOnNothing(limits, t, LIVE, REQUEST.(nowMs := 100), again.value, 0);
    }
  }

  lemma NothingOpen(key: Digest)
    ensures FindLive(map[], key, 1).None?
  {}

  /** A report that was committed is sent again: with the stamp it was committed with it is a duplicate, and one
      millisecond later it is refused as conflicting content. Nothing is written either way. */
  lemma ResubmissionExhibited(limits: Limits) returns (events: seq<Event>)
    requires Ample(limits)
    requires NoCollision(ObservationDigestInput(SEEN), ObservationDigestInput(Stamped(REPORT, 1, 6)))
    ensures var w := Run(limits, events);
            var t := Memory(limits, w);
            && w.live == Some(LIVE) && Stream(t, SCOPE) == [SEEN]
            && RecordOp(limits, t, LIVE, REPORT, 5, 6) == Effect(Ok(Recorded(SEEN, true)), [])
            && RecordOp(limits, t, LIVE, REPORT, 6, 6)
               == Effect(Refused(ConflictState, CONFLICTING_REPUBLISHERS), [])
  {
    hide Run, CommitAll, RecordOp, Memory, TablesOf, ObservationDigestInput, Stamped, Base;
    events := Opens(limits);
    var t := TablesOf(limits, Run(limits, events));
    UpMemory(limits, Run(limits, events));
    BaseStream(t);
    SentAgain(limits, t, 5, 6);
    SentAgain(limits, t, 6, 6);
  }

  lemma BaseStream(t: Tables)
    requires Base(t, [SEEN])
    ensures Stream(t, SCOPE) == [SEEN]
  {
    hide IntentDigest, ObservationDigest;
  }

  lemma SentAgain(limits: Limits, t: Tables, stampMs: int, clock: int)
    requires Ample(limits) && Stream(t, SCOPE) == [SEEN] && 0 < stampMs < 10
    requires NoCollision(ObservationDigestInput(SEEN), ObservationDigestInput(Stamped(REPORT, 1, stampMs)))
    ensures RecordOp(limits, t, LIVE, REPORT, stampMs, clock)
         == Effect(if stampMs == 5 then Ok(Recorded(SEEN, true)) else Refused(ConflictState, CONFLICTING_REPUBLISHERS),
                   [])
  {
    hide ObservationDigestInput, PutObservation, ObservationDigest, Stream;
    assert REPORT.subjects.Keys == {};
    SortedKeysIn(REPORT.subjects);
    assert ValidateDocument(limits, true, REPORT.subjects).Ok?;
    assert FirstSame([SEEN], REPORT.reporter, REPORT.observation, REPORT.generation) == Some(SEEN);
    StampedFits(REPORT, 1, 5);
    StampedFits(REPORT, 1, stampMs);
    ResubmissionExactly(limits, t, LIVE, REPORT, 1, 5, stampMs, clock);
  }

  lemma StampedFits(s: Submission, epoch: nat, atMs: int)
    requires s.subjects == map[] && |s.observation| == |s.scope| == |s.reporter| == 1
    ensures Fits(PutObservation(Stamped(s, epoch, atMs), []))
  {
    hide LE, ObservationDigest;
    assert Stamped(s, epoch, atMs).subjects.Keys == {};
  }

  /** An applied attempt is reported as verified, and its outcome is committed as verified with no observation behind
      it. */
  lemma VerifiedByReportExhibited(limits: Limits) returns (events: seq<Event>, c: Completion)
    requires Spacious(limits)
    ensures var w := Run(limits, events);
            var effect := CompleteOp(limits, Memory(limits, w), LIVE, c, 8);
            && w.live == Some(LIVE) && c.target == Verified && effect.result.Ok? && effect.result.value.verified
            && effect.result.value.verifiedGeneration == 0 && |effect.entries| == 2
  {
    hide Run, CommitAll, EntriesOf, Base, Held, Takes, Ours, TablesOf, Report, CompleteOp, Memory;
    var first, plan, a := Dispatches(limits);
    var t := TablesOf(limits, Run(limits, first));
    var b, entries := CompleteStep(limits, t, plan, 1, Applied, 7, [SEEN]);
    var apply := Complete(Report(a, Applied, 7), 7);
    var w := Completes(limits, first, apply, entries);
    events := first + [Do(apply, 9, Stops)];
    UpMemory(limits, w);
    c := Report(b, Verified, 8);
    var _, _ := CompletesOne(limits, TablesOf(limits, w), plan, 1, Verified, 8);
    ReportTarget(b, Verified, 8);
  }

  lemma ReportTarget(a: Attempt, target: AttemptState, atMs: int)
    ensures Report(a, target, atMs).target == target
  {}

  /** The process stops between the end of an attempt and its outcome: the next record is the next incarnation's
      epoch. */
  lemma LostOutcomeExhibited(limits: Limits) returns (events: seq<Event>, n: nat)
    requires Spacious(limits)
    ensures var log := Run(limits, events).log;
            n + 1 < |log| && log[n].AttemptMoved? && log[n].moved.state == Failed && log[n + 1] == EpochAdvance(2)
  {
    hide Run, CommitAll, EntriesOf, Held, Takes, Ours, TablesOf, Report, Reach, Accepted, Next, Base;
    var first, plan, a := Dispatches(limits);
    var before := Run(limits, first);
    var b, entries := CompleteStep(limits, TablesOf(limits, before), plan, 1, Failed, 7, [SEEN]);
    var fail := Complete(Report(a, Failed, 7), 7);
    EndsInTwo(limits, TablesOf(limits, before), plan, a, entries);
    StopsAfterOne(limits, first, fail, entries);
    n := |before.log|;
    OursId(b, 1, plan);
    AfterTheEnd(limits, before, a, b, Run(limits, first + [Do(fail, 1, Stops)]));
    StartsAgain(limits, first + [Do(fail, 1, Stops)], b);
    events := first + [Do(fail, 1, Stops)] + [Start(Some(POLICY), BOOT, 8, 9)];
  }

  lemma EndsInTwo(limits: Limits, t: Tables, plan: Plan, a: Attempt, entries: seq<Entry>)
    requires t.attempts == map[1 := a] && Ours(a, 1, plan) && a.state == Dispatched && |a.transitions| == 1
    requires entries == EntriesOf(limits, t, LIVE, Complete(Report(a, Failed, 7), 7))
    ensures |entries| == 2
  {
    hide CompleteOp, PlanFacts, Ours, EntriesOf, Report;
    EntriesOfComplete(limits, t, Report(a, Failed, 7), 7);
    var _, _ := CompletesOne(limits, t, plan, 1, Failed, 7);
  }

  lemma AfterTheEnd(limits: Limits, before: World, a: Attempt, b: Attempt, w: World)
    requires Ample(limits) && Base(TablesOf(limits, before), [SEEN]) && TablesOf(limits, before).attempts == map[1 := a]
    requires TablesOf(limits, before).nextAttempt == 2 && b.id == 1 && w.log == before.log + [AttemptMoved(b)]
    ensures Base(TablesOf(limits, w), [SEEN]) && TablesOf(limits, w).attempts == map[1 := b]
  {
    hide CommitAll, Base, Commit, Ample;
    var t := TablesOf(limits, before);
    CommitSplit(limits, EMPTY, NOTHING, before.log, [AttemptMoved(b)]);
    CommitOne(limits, t, AttemptMoved(b));
    MovesOne(limits, t, b, OutcomeOf(b, Failed, 0, false, 0, 0), [SEEN]);
    assert map[1 := a][1 := b] == map[1 := b];
  }

  lemma StopsAfterOne(limits: Limits, events: seq<Event>, op: Op, entries: seq<Entry>)
    requires Up(Run(limits, events)) && !op.DispatchPlan? && entries != []
    requires entries == EntriesOf(limits, TablesOf(limits, Run(limits, events)), LIVE, op) && Takes(limits, entries)
    ensures var w := Run(limits, events + [Do(op, 1, Stops)]);
            w.log == Run(limits, events).log + [entries[0]] && (|entries| > 1 ==> w.live.None?)
  {
    hide Run, CommitAll, EntriesOf, Reach, Takes, Next;
    OneMore(limits, events, Do(op, 1, Stops));
    NextDo(limits, Run(limits, events), op, entries, 1, Stops);
    TakesAll(limits, entries);
    assert entries[..1] == [entries[0]];
  }

  lemma StartsAgain(limits: Limits, events: seq<Event>, b: Attempt)
    requires Ample(limits) && Run(limits, events).live.None? && b.state == Failed
    requires Base(TablesOf(limits, Run(limits, events)), [SEEN])
             && TablesOf(limits, Run(limits, events)).attempts == map[1 := b]
    ensures Run(limits, events + [Start(Some(POLICY), BOOT, 8, 9)]).log == Run(limits, events).log + [EpochAdvance(2)]
  {
    hide Run, Accepted, TablesOf, Boot, Reach, Next, Restarted, Base, Ample;
    var w := Run(limits, events);
    OneMore(limits, events, Start(Some(POLICY), BOOT, 8, 9));
    BootsAgain(limits, TablesOf(limits, w), b);
    EpochFits(limits);
    TakesAll(limits, [EpochAdvance(2)]);
    NextStart(limits, w, Effect(Ok(Live(2, BOOT)), [EpochAdvance(2)]));
  }

  lemma NextStart(limits: Limits, w: World, effect: Effect<Live>)
    requires w.live.None? && Boot(limits, TablesOf(limits, w), Some(POLICY), BOOT, 8) == effect
    requires Reach(limits, effect.entries) == |effect.entries| <= 9
    ensures Next(limits, w, Start(Some(POLICY), BOOT, 8, 9)).log == w.log + effect.entries
  {
    hide TablesOf, Boot, Reach;
    assert effect.entries[..|effect.entries|] == effect.entries;
  }

  lemma EpochFits(limits: Limits)
    requires Ample(limits)
    ensures Accepted(limits, EpochAdvance(2))
  {
    hide LE;
  }

  lemma BootsAgain(limits: Limits, t: Tables, b: Attempt)
    requires Base(t, [SEEN]) && t.attempts == map[1 := b] && b.state == Failed
    ensures Boot(limits, t, Some(POLICY), BOOT, 8) == Effect(Ok(Live(2, BOOT)), [EpochAdvance(2)])
  {
    hide InitialPolicy, IntentDigest, ObservationDigest;
    assert LiveIds(t.attempts) == {};
    assert [] + [EpochAdvance(2)] + [] == [EpochAdvance(2)];
  }
}
