/** The engine's operations. Each reads the durable tables and answers with a result and with the
    records it makes durable, in order; nothing else changes. */
module Engine {
  import opened Bytes
  import opened Ordering
  import opened Model
  import opened DocumentCodec
  import opened LineageCodec
  import opened StoreState
  import opened Drift
  import opened Planner

  datatype Effect<T> = Effect(result: Result<T>, entries: seq<Entry>)

  /** A record the store has made durable takes effect, unless it fails validation: only a fence whose detail text is
      too long is written without being validated first. */
  function Commit(limits: Limits, t: Tables, e: Entry): Tables {
    if e.FencePut? && !ValidFence(e.fence) then t else Apply(limits, t, e)
  }

  function CommitAll(limits: Limits, t: Tables, entries: seq<Entry>): Tables
    decreases |entries|
  {
    if entries == [] then t else CommitAll(limits, Commit(limits, t, entries[0]), entries[1..])
  }

  /** A caller's timestamp, or the clock when it gave none. */
  function Stamp(given: int, clock: int): int {
    if given != 0 then given else clock
  }

  // ---------------------------------------------------------------- attempts

  predicate TransitionLegal(from: AttemptState, to: AttemptState) {
    match from
    case Issued =>
      to.Dispatched? || to.Acknowledged? || to.Applied? || to.Failed? || to.Abandoned? || to.Superseded? || to.Fenced?
      || to.Interrupted?
    case Dispatched =>
      to.Acknowledged? || to.Applied? || to.Failed? || to.Abandoned? || to.Superseded? || to.Fenced? || to.Interrupted?
    case Acknowledged =>
      to.Applied? || to.Failed? || to.Abandoned? || to.Superseded? || to.Fenced? || to.Interrupted?
    case Applied =>
      to.Verified? || to.Failed? || to.Fenced? || to.Interrupted?
    case _ => false
  }

  /** The oldest transition makes room for the newest. */
  function Moved(limits: Limits, a: Attempt, step: Transition): Attempt {
    var kept := if |a.transitions| >= limits.maxTransitions && a.transitions != [] then a.transitions[1..]
                else a.transitions;
    a.(state := step.to, transitions := kept + [step])
  }

  /** A restart keeps the oldest transitions instead. */
  function MovedByRestart(limits: Limits, a: Attempt, step: Transition): Attempt {
    a.(state := step.to,
       transitions := if |a.transitions| < limits.maxTransitions then a.transitions + [step] else a.transitions)
  }

  function OutcomeOf(a: Attempt, state: AttemptState, reason: ReasonCode, ambiguous: bool, nowMs: int,
                     generation: nat): Outcome {
    Outcome(a.key, a.scope, a.subject, a.action, a.id, a.epoch, a.boot, state, reason, nowMs, state == Verified,
            generation, ambiguous)
  }

  predicate IsLive(a: Attempt) {
    !IsTerminal(a.state)
  }

  // ---------------------------------------------------------------- restart

  /** Why attempts are being ended without their caller. */
  datatype Closing = ByRestart | ByFence

  /** What never left the process is abandoned by a restart; what may have taken effect is interrupted. */
  function ClosingStep(live: Live, closing: Closing, a: Attempt, nowMs: int): Transition {
    match closing
    case ByFence => Transition(a.state, Fenced, live.epoch, live.boot, nowMs, ATTEMPT_FENCED_BY_EPOCH_ADVANCE,
                               NO_REASON)
    case ByRestart =>
      if a.state == Issued then Transition(a.state, Abandoned, live.epoch, live.boot, nowMs, ATTEMPT_ABANDONED,
                                           NO_REASON)
      else Transition(a.state, Interrupted, live.epoch, live.boot, nowMs, ATTEMPT_INTERRUPTED_BY_RESTART, NO_REASON)
  }

  /** The attempt ends, and its outcome is committed; only a restart leaves the outcome ambiguous. */
  function CloseEntries(limits: Limits, live: Live, closing: Closing, a: Attempt, nowMs: int): seq<Entry> {
    var step := ClosingStep(live, closing, a, nowMs);
    var moved := if closing == ByRestart then MovedByRestart(limits, a, step) else Moved(limits, a, step);
    [AttemptMoved(moved),
     OutcomeCommit(OutcomeOf(moved, step.to, step.reason, closing == ByRestart && a.state != Issued, nowMs, 0))]
  }

  function CloseAll(limits: Limits, live: Live, closing: Closing, attempts: map<nat, Attempt>, ids: seq<nat>,
                    nowMs: int): seq<Entry>
    requires forall id :: id in ids ==> id in attempts
  {
    if ids == [] then []
    else
      CloseEntries(limits, live, closing, attempts[ids[0]], nowMs)
      + CloseAll(limits, live, closing, attempts, ids[1..], nowMs)
  }

  function LiveIds(attempts: map<nat, Attempt>): set<nat> {
    set id | id in attempts && IsLive(attempts[id])
  }

  /** The open attempts, in identity order. */
  function OpenIds(attempts: map<nat, Attempt>): (ids: seq<nat>)
    ensures forall id :: id in ids ==> id in attempts
  {
    SortedIds(LiveIds(attempts))
  }

  const DEFAULT_POLICY_ID: Id := [100, 101, 102, 97, 117, 108, 116, 47, 102, 97, 105, 108, 45, 99, 108, 111, 115, 101,
                                  100]
  const DEFAULT_POLICY: Policy := Policy(DEFAULT_POLICY_ID, 1, 30000, true, true, true, true, true, true, true, [], [])

  function InitialPolicy(limits: Limits, supplied: Option<Policy>): Result<Policy> {
    if supplied.None? then Refused(PreconditionFailed, NO_INTENT_FOR_SCOPE)
    else CanonicalisePolicy(limits, if supplied.value.id == [] then DEFAULT_POLICY else supplied.value)
  }

  /** A new incarnation: a policy if there is none, the next epoch, and an end to every attempt still open. */
  function Boot(limits: Limits, t: Tables, supplied: Option<Policy>, boot: BootId, clock: int): Effect<Live> {
    var initial := InitialPolicy(limits, supplied);
    if t.policy.None? && initial.Refused? then Effect(Refused(initial.code, initial.reason), [])
    else
      var installed := if t.policy.None? then [PolicyPut(initial.value)] else [];
      var next := (t.lastEpoch + 1) % TWO64;
      if next <= t.lastEpoch then Effect(Refused(ConflictState, FENCE_EPOCH_NOT_NEWER), installed)
      else
        var live := Live(next, boot);
        Effect(Ok(live), installed + [EpochAdvance(next)]
               + CloseAll(limits, live, ByRestart, t.attempts, OpenIds(t.attempts), clock))
  }

  // ---------------------------------------------------------------- documents

  function PutPolicyOp(limits: Limits, t: Tables, policy: Policy, allowSame: bool): Effect<ReasonCode> {
    var canonical := CanonicalisePolicy(limits, policy);
    if canonical.Refused? then Effect(Refused(canonical.code, canonical.reason), [])
    else if t.policy.Some? && canonical.value.version < t.policy.value.version then
      Effect(Refused(ConflictState, INTENT_GENERATION_REGRESSED), [])
    else if t.policy.Some? && canonical.value.version == t.policy.value.version then
      if allowSame && PolicyDigest(canonical.value) == PolicyDigest(t.policy.value)
      then Effect(Ok(DUPLICATE_INTENT_IDENTICAL), [])
      else Effect(Refused(ConflictState, CONFLICTING_REPUBLISHERS), [])
    else Effect(Ok(NO_REASON), [PolicyPut(canonical.value)])
  }

  function ValidateState(limits: Limits, m: Attributes): Result<bool> {
    if |m| > limits.maxAttributesPerSubject then Refused(LimitExceeded, PLAN_ACTION_LIMIT_REACHED)
    else if exists k :: k in m && (k == [] || !IsValidValue(m[k])) then Refused(Rejected, UNSUPPORTED_INPUT)
    else Ok(true)
  }

  /** The first subject at fault decides. */
  function ValidateSubjects(limits: Limits, subjects: map<Id, Subject>, keys: seq<Id>): (r: Result<bool>)
    requires forall k :: k in keys ==> k in subjects
    ensures r.Ok? ==> forall k :: k in keys ==> k != [] && ValidateState(limits, subjects[k].attributes).Ok?
  {
    if keys == [] then Ok(true)
    else if keys[0] == [] then Refused(Rejected, UNSUPPORTED_INPUT)
    else
      var state := ValidateState(limits, subjects[keys[0]].attributes);
      if state.Refused? then state else ValidateSubjects(limits, subjects, keys[1..])
  }

  function ValidateDocument(limits: Limits, named: bool, subjects: map<Id, Subject>): Result<bool> {
    if !named then Refused(Rejected, UNSUPPORTED_INPUT)
    else if |subjects| > limits.maxSubjectsPerDocument then Refused(LimitExceeded, PLAN_ACTION_LIMIT_REACHED)
    else SortedKeysIn(subjects); ValidateSubjects(limits, subjects, SortedKeys(subjects.Keys))
  }

  datatype Committed = Committed(generation: nat, digest: Digest, duplicate: bool)

  function CommitIntentOp(limits: Limits, t: Tables, document: Intent): Effect<Committed> {
    var valid := ValidateDocument(limits, document.intent != [] && document.scope != []
                                          && document.definition != [], document.subjects);
    if valid.Refused? then Effect(Refused(valid.code, valid.reason), [])
    else
      var candidate := document.(digest := IntentDigest(document));
      if candidate.scope in t.intents && candidate.generation < t.intents[candidate.scope].generation then
        Effect(Refused(Rejected, INTENT_GENERATION_REGRESSED), [])
      else if candidate.scope in t.intents && candidate.generation == t.intents[candidate.scope].generation then
        if candidate.digest == t.intents[candidate.scope].digest
        then Effect(Ok(Committed(candidate.generation, candidate.digest, true)), [])
        else Effect(Refused(ConflictState, CONFLICTING_REPUBLISHERS), [])
      else Effect(Ok(Committed(candidate.generation, candidate.digest, false)), [IntentCommit(candidate)])
  }

  function Stamped(s: Submission, epoch: nat, nowMs: int): Observation {
    var bare := Observation(s.observation, s.scope, s.reporter, s.generation, s.evidence, s.complete,
                            s.authoritativeAbsence, epoch, nowMs, s.subjects, BLANK_DIGEST);
    bare.(digest := ObservationDigest(bare))
  }

  lemma ObservationDigestIgnoresDigest(d: Observation, digest: Digest)
    ensures ObservationDigest(d.(digest := digest)) == ObservationDigest(d)
  {}

  /** The first document of the stream with the same reporter, identity and generation. */
  function FirstSame(stream: seq<Observation>, reporter: Id, observation: Id, generation: nat): (r: Option<Observation>)
    ensures r.Some? ==>
              && r.value in stream && r.value.reporter == reporter && r.value.observation == observation
              && r.value.generation == generation
    ensures r.None? ==>
              forall o :: o in stream ==>
                            o.reporter != reporter || o.observation != observation || o.generation != generation
  {
    if stream == [] then None
    else if stream[0].reporter == reporter && stream[0].observation == observation
            && stream[0].generation == generation then Some(stream[0])
    else FirstSame(stream[1..], reporter, observation, generation)
  }

  datatype Recorded = Recorded(stamped: Observation, duplicate: bool)

  function RecordOp(limits: Limits, t: Tables, live: Live, s: Submission, stampMs: int, clock: int): Effect<Recorded> {
    var valid := ValidateDocument(limits, s.observation != [] && s.scope != [] && s.reporter != [], s.subjects);
    if valid.Refused? then Effect(Refused(valid.code, valid.reason), [])
    else
      var document := Stamped(s, live.epoch, Stamp(stampMs, clock));
      var stream := Stream(t, s.scope);
      var same := FirstSame(stream, s.reporter, s.observation, s.generation);
      if same.Some? then
        if same.value.digest == document.digest then Effect(Ok(Recorded(same.value, true)), [])
        else Effect(Refused(ConflictState, CONFLICTING_REPUBLISHERS), [])
      else if exists o :: o in stream && o.reporter == s.reporter && s.generation < o.generation then
        Effect(Refused(Rejected, OBSERVATION_GENERATION_REGRESSED), [])
      else Effect(Ok(Recorded(document, false)), [ObservationCommit(document)])
  }

  // ---------------------------------------------------------------- dispatch

  /** An action handed to the caller for execution. */
  datatype Action = Action(
    scope: Id, subject: Id, action: ActionKind, authority: Authority, key: Digest, attempt: nat, epoch: nat,
    boot: BootId, issuedMs: int, desired: Attributes)

  datatype Issue = Issue(actions: seq<Action>, entries: seq<Entry>, alreadyIssued: nat, fenced: nat)

  predicate Matches(a: Attempt, key: Digest, epoch: nat) {
    a.key == key && a.epoch == epoch && IsLive(a)
  }

  function Matching(attempts: map<nat, Attempt>, key: Digest, epoch: nat): set<nat> {
    set id | id in attempts && Matches(attempts[id], key, epoch)
  }

  /** The attempt already open for a key, the oldest identity first. */
  function FindLive(attempts: map<nat, Attempt>, key: Digest, epoch: nat): (r: Option<nat>)
    ensures r.Some? ==> r.value in attempts && Matches(attempts[r.value], key, epoch)
    ensures r.None? ==> forall id :: id in attempts ==> !Matches(attempts[id], key, epoch)
  {
    var ids := Matching(attempts, key, epoch);
    if ids == {} then assert forall id :: id in attempts ==> id !in ids; None else Some(Smallest(ids))
  }

  function NewAttempt(t: Tables, live: Live, d: Decision, nowMs: int): Attempt {
    var step := Transition(Issued, Dispatched, live.epoch, live.boot, nowMs, ATTEMPT_ISSUED, NO_REASON);
    Attempt(if t.nextAttempt == 0 then 1 else t.nextAttempt, d.key, d.scope, d.subject, d.action, live.epoch, live.boot,
            d.authority, Dispatched, nowMs, [step])
  }

  function ActionFor(a: Attempt, desired: map<Id, Subject>): Action {
    Action(a.scope, a.subject, a.action, a.authority, a.key, a.id, a.epoch, a.boot, a.issuedMs,
           StateOfSubject(desired, a.subject))
  }

  function DispatchFrom(limits: Limits, t: Tables, live: Live, desired: map<Id, Subject>, decisions: seq<Decision>,
                        nowMs: int): Issue
    decreases |decisions|
  {
    if decisions == [] then Issue([], [], 0, 0)
    else
      var d := decisions[0];
      if d.disposition != Actionable then DispatchFrom(limits, t, live, desired, decisions[1..], nowMs)
      else if FenceHolds(t.fences, d.scope, d.subject, live.epoch) then
        var rest := DispatchFrom(limits, t, live, desired, decisions[1..], nowMs);
        rest.(fenced := rest.fenced + 1)
      else
        var open := FindLive(t.attempts, d.key, live.epoch);
        if open.Some? then
          var rest := DispatchFrom(limits, t, live, desired, decisions[1..], nowMs);
          rest.(actions := [ActionFor(t.attempts[open.value], desired)] + rest.actions,
                alreadyIssued := rest.alreadyIssued + 1)
        else
          var a := NewAttempt(t, live, d, nowMs);
          var rest := DispatchFrom(limits, Commit(limits, t, AttemptIssued(a)), live, desired, decisions[1..], nowMs);
          rest.(actions := [ActionFor(a, desired)] + rest.actions, entries := [AttemptIssued(a)] + rest.entries)
  }

  /** Why a plan is refused as a whole, if it is. */
  function DispatchRefusal(t: Tables, live: Live, plan: Plan): Result<bool> {
    var e := plan.evidence;
    if plan.live != live then Refused(StaleAuthority, AUTHORITY_EPOCH_MISMATCH)
    else if t.policy.None? then Refused(PreconditionFailed, NO_INTENT_FOR_SCOPE)
    else if plan.policyDigest != PolicyDigest(t.policy.value) then Refused(StaleAuthority, AUTHORITY_POLICY_MISMATCH)
    else if plan.scope !in t.intents
            || t.intents[plan.scope].generation != (if e.intent.Some? then e.intent.value.generation else 0)
            || t.intents[plan.scope].digest != (if e.intent.Some? then e.intent.value.digest else BLANK_DIGEST) then
      Refused(StaleAuthority, AUTHORITY_INTENT_GENERATION_MISMATCH)
    else
      var selected := SelectObservation(Stream(t, plan.scope)).selected;
      if selected.None?
         || selected.value.observation != (if e.observation.Some? then e.observation.value.observation else [])
         || selected.value.generation != (if e.observation.Some? then e.observation.value.generation else 0)
         || selected.value.digest != (if e.observation.Some? then e.observation.value.digest else BLANK_DIGEST) then
        Refused(StaleAuthority, AUTHORITY_OBSERVATION_GENERATION_MISMATCH)
      else Ok(true)
  }

  datatype Dispatch = Dispatch(actions: seq<Action>, alreadyIssued: nat, fenced: nat)

  function DispatchOp(limits: Limits, t: Tables, live: Live, plan: Plan, clock: int): Effect<Dispatch> {
    var refusal := DispatchRefusal(t, live, plan);
    if refusal.Refused? then Effect(Refused(refusal.code, refusal.reason), [])
    else
      var issue := DispatchFrom(limits, t, live, t.intents[plan.scope].subjects, plan.decisions, clock);
      Effect(Ok(Dispatch(issue.actions, issue.alreadyIssued, issue.fenced)), issue.entries)
  }

  // ---------------------------------------------------------------- completion

  datatype Completion = Completion(
    attempt: nat, key: Digest, epoch: nat, boot: BootId, target: AttemptState, reason: ReasonCode, atMs: int)

  function CompleteOp(limits: Limits, t: Tables, live: Live, c: Completion, clock: int): Effect<Outcome> {
    if c.attempt !in t.attempts then Effect(Refused(NotFound, ATTEMPT_UNKNOWN), [])
    else
      var a := t.attempts[c.attempt];
      if a.key != c.key then Effect(Refused(Rejected, ATTEMPT_UNKNOWN), [])
      else if c.epoch != live.epoch || c.boot != live.boot
      then Effect(Refused(StaleAuthority, ATTEMPT_FENCED_BY_EPOCH_ADVANCE), [])
      else if a.epoch != live.epoch || a.boot != live.boot
      then Effect(Refused(StaleAuthority, ATTEMPT_FENCED_BY_EPOCH_ADVANCE), [])
      else if IsTerminal(a.state) then Effect(Refused(ConflictState, ATTEMPT_TERMINAL_ALREADY), [])
      else if !TransitionLegal(a.state, c.target) then Effect(Refused(Rejected, ATTEMPT_TRANSITION_ILLEGAL), [])
      else
        var now := Stamp(c.atMs, clock);
        var reason := if c.reason != NO_REASON then c.reason else ReasonOfState(c.target);
        var moved := Moved(limits, a, Transition(a.state, c.target, live.epoch, live.boot, now, reason, NO_REASON));
        if IsTerminal(c.target) then
          var outcome := OutcomeOf(moved, c.target, reason, IsInconclusive(c.target), now, 0);
          Effect(Ok(outcome), [AttemptMoved(moved), OutcomeCommit(outcome)])
        else Effect(Ok(OutcomeOf(moved, c.target, reason, false, now, 0)), [AttemptMoved(moved)])
  }

  // ---------------------------------------------------------------- verification

  datatype Verification = Verification(
    key: Digest, scope: Id, subject: Id, verifier: Id, applier: Id, observation: Id, generation: nat,
    receivedEpoch: nat, receivedMs: int, confirmsEffect: bool)

  function WithKey(attempts: map<nat, Attempt>, key: Digest): set<nat> {
    set id | id in attempts && attempts[id].key == key
  }

  /** The policy a store without one reports. */
  const BLANK_POLICY: Policy := Policy([], 0, 30000, true, true, true, true, true, true, true, [], [])

  function ActivePolicy(t: Tables): Policy {
    if t.policy.Some? then t.policy.value else BLANK_POLICY
  }

  function VerifyOp(limits: Limits, t: Tables, live: Live, v: Verification, clock: int): Effect<Outcome> {
    var policy := ActivePolicy(t);
    if WithKey(t.attempts, v.key) == {} then Effect(Refused(NotFound, ATTEMPT_UNKNOWN), [])
    else
      var a := t.attempts[Smallest(WithKey(t.attempts, v.key))];
      if a.scope != v.scope || a.subject != v.subject then Effect(Refused(Rejected, ATTEMPT_UNKNOWN), [])
      else if a.epoch != live.epoch || a.boot != live.boot
      then Effect(Refused(StaleAuthority, ATTEMPT_FENCED_BY_EPOCH_ADVANCE), [])
      else if a.state != Applied then Effect(Refused(PreconditionFailed, VERIFICATION_NOT_NEWER), [])
      else if policy.requireIndependentVerification && v.verifier == v.applier then
        Effect(Refused(Rejected, VERIFICATION_NOT_INDEPENDENT), [])
      else if v.receivedEpoch != live.epoch then Effect(Refused(StaleAuthority, OBSERVATION_FOREIGN_EPOCH), [])
      else if v.generation <= a.authority.observationGeneration
      then Effect(Refused(StaleAuthority, VERIFICATION_NOT_NEWER), [])
      else
        var cited := FirstSame(Stream(t, v.scope), v.verifier, v.observation, v.generation);
        if cited.None? then Effect(Refused(NotFound, NO_OBSERVATION_FOR_SCOPE), [])
        else
          var freshness := EvaluateFreshness(cited.value, policy, live.epoch, clock);
          if freshness != Fresh then Effect(Refused(StaleAuthority, ReasonOfFreshness(freshness)), [])
          else
            var now := Stamp(v.receivedMs, clock);
            var next := if v.confirmsEffect then Verified else Failed;
            var reason := if v.confirmsEffect then ATTEMPT_VERIFIED else ATTEMPT_FAILED;
            var found := if v.confirmsEffect then ATTEMPT_VERIFIED else VERIFICATION_NOT_NEWER;
            var moved := Moved(limits, a, Transition(a.state, next, live.epoch, live.boot, now, reason, found));
            var outcome := OutcomeOf(moved, next, reason, !v.confirmsEffect, now, v.generation);
            Effect(Ok(outcome), [AttemptMoved(moved), OutcomeCommit(outcome)])
  }

  // ---------------------------------------------------------------- fences

  predicate Revoked(f: Fence, a: Attempt) {
    IsLive(a) && Covers(f, a.scope, a.subject) && a.epoch < f.fencedBelow
  }

  function Victims(attempts: map<nat, Attempt>, f: Fence): set<nat> {
    set id | id in attempts && Revoked(f, attempts[id])
  }

  lemma VictimsKnown(attempts: map<nat, Attempt>, f: Fence)
    ensures forall id :: id in SortedIds(Victims(attempts, f)) ==> id in attempts
  {}

  function PutFenceOp(limits: Limits, t: Tables, live: Live, fence: Fence, clock: int): Effect<bool> {
    if fence.id == [] || fence.scope == [] then Effect(Refused(Rejected, UNSUPPORTED_INPUT), [])
    else if fence.fencedBelow == 0 then Effect(Refused(Rejected, FENCE_EPOCH_NOT_NEWER), [])
    else
      var now := Stamp(fence.createdMs, clock);
      var entry := fence.(createdMs := now);
      if !ValidFence(entry) then Effect(Refused(IntegrityFailure, JOURNAL_ENUM_INVALID), [FencePut(entry)])
      else
        var victims := SortedIds(Victims(t.attempts, entry));
        Effect(Ok(true), [FencePut(entry)] + CloseAll(limits, live, ByFence, t.attempts, victims, now))
  }

  function ClearFenceOp(t: Tables, id: Id): Effect<bool> {
    if id !in t.fences then Effect(Refused(NotFound, NO_REASON), []) else Effect(Ok(true), [FenceClear(id)])
  }
}
