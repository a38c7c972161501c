/** Authority vectors, attempts, outcomes and fences as canonical bytes, and back;
    and the idempotency key that names an action. */
module LineageCodec {
  import opened Bytes
  import opened Ordering
  import opened Model
  import opened Canonical
  import opened DocumentCodec

  predicate InU64(n: nat) { n < TWO64 }
  predicate InI64(i: int) { 0 - TWO63 <= i < TWO63 }

  function ReadBoot(s: seq<byte>): Read<BootId> {
    var (b, r) :- ReadBytes(s);
    if |b| != 16 then Bad else Got(b, r)
  }

  lemma ReadPutBoot(b: BootId, k: seq<byte>)
    ensures ReadBoot(PutBytes(b, k)) == Got(b, k)
  {
    hide PutBytes, ReadBytes;
    ReadPutBytes(b, k);
  }

  // ---------------------------------------------------------------- authority vectors

  function PutIntentBinding(a: Authority, k: seq<byte>): seq<byte> {
    PutU64(a.epoch, PutBytes(a.boot, PutBytes(a.policyId, PutU64(a.policyVersion, PutDigest(a.policyDigest,
      PutBytes(a.definition, PutU64(a.intentGeneration, PutBytes(a.intent, PutDigest(a.intentDigest, k)))))))))
  }

  function PutObservationBinding(a: Authority, k: seq<byte>): seq<byte> {
    PutBytes(a.observation, PutU64(a.observationGeneration, PutBytes(a.reporter,
      PutDigest(a.observationDigest, PutU64(a.observationEpoch, PutI64(a.observationReceivedMs, k))))))
  }

  function PutAuthority(a: Authority, k: seq<byte>): seq<byte> {
    PutIntentBinding(a, PutObservationBinding(a, k))
  }

  const BLANK_DIGEST: Digest := Zeros(32)

  predicate ValidIntentBinding(a: Authority) {
    && InU64(a.epoch) && OptionalId(a.policyId) && InU64(a.policyVersion) && OptionalId(a.definition)
    && InU64(a.intentGeneration) && OptionalId(a.intent)
  }

  predicate ValidObservationBinding(a: Authority) {
    && OptionalId(a.observation) && InU64(a.observationGeneration) && OptionalId(a.reporter)
    && InU64(a.observationEpoch) && InI64(a.observationReceivedMs)
  }

  predicate ValidAuthority(a: Authority) {
    ValidIntentBinding(a) && ValidObservationBinding(a)
  }

  /** The first nine fields; the observation binding is left blank. */
  function ReadIntentBinding(s: seq<byte>): Read<Authority> {
    var (epoch, s1) :- ReadU64(s);
    var (boot, s2) :- ReadBoot(s1);
    var (policyId, s3) :- ReadBytes(s2);
    var (policyVersion, s4) :- ReadU64(s3);
    var (policyDigest, s5) :- ReadDigest(s4);
    var (definition, s6) :- ReadBytes(s5);
    var (intentGeneration, s7) :- ReadU64(s6);
    var (intent, s8) :- ReadBytes(s7);
    var (intentDigest, s9) :- ReadDigest(s8);
    if !OptionalId(policyId) || !OptionalId(definition) || !OptionalId(intent) then Bad else
    Got(Authority(epoch, boot, policyId, policyVersion, policyDigest, definition, intentGeneration, intent,
                  intentDigest, [], 0, [], BLANK_DIGEST, 0, 0), s9)
  }

  /** The observation binding, added to what was read. */
  function ReadObservationBinding(a: Authority, s: seq<byte>): Read<Authority> {
    var (observation, s1) :- ReadBytes(s);
    var (generation, s2) :- ReadU64(s1);
    var (reporter, s3) :- ReadBytes(s2);
    var (digest, s4) :- ReadDigest(s3);
    var (epoch, s5) :- ReadU64(s4);
    var (received, s6) :- ReadI64(s5);
    if !OptionalId(observation) || !OptionalId(reporter) then Bad else
    Got(a.(observation := observation, observationGeneration := generation, reporter := reporter,
           observationDigest := digest, observationEpoch := epoch, observationReceivedMs := received), s6)
  }

  function ReadAuthority(s: seq<byte>): Read<Authority> {
    var (head, s1) :- ReadIntentBinding(s);
    ReadObservationBinding(head, s1)
  }

  lemma ReadAuthorityValid(s: seq<byte>)
    ensures ReadAuthority(s).Got? ==> ValidAuthority(ReadAuthority(s).value)
  {
    hide ReadBytes, ReadBoot, ReadU64, ReadDigest, ReadI64, OptionalId;
    forall t: seq<byte> ensures ReadU64(t).Got? ==> ReadU64(t).value < TWO64 { ReadU64InRange(t); }
    forall t: seq<byte> ensures ReadI64(t).Got? ==> InI64(ReadI64(t).value) { ReadI64InRange(t); }
  }

  lemma OptionalIdFits(s: Id)
    requires OptionalId(s)
    ensures |s| <= MAX_CANONICAL_BYTES
  {
  }

  lemma ReadPutIntentBinding(a: Authority, k: seq<byte>)
    requires ValidIntentBinding(a)
    ensures ReadIntentBinding(PutIntentBinding(a, k))
         == Got(a.(observation := [], observationGeneration := 0, reporter := [], observationDigest := BLANK_DIGEST,
                   observationEpoch := 0, observationReceivedMs := 0), k)
  {
    hide PutBytes, ReadBytes, ReadBoot, PutU64, ReadU64, PutDigest, ReadDigest, OptionalId;
    var k9 := PutDigest(a.intentDigest, k);
    var k8 := PutBytes(a.intent, k9);
    var k7 := PutU64(a.intentGeneration, k8);
    var k6 := PutBytes(a.definition, k7);
    var k5 := PutDigest(a.policyDigest, k6);
    var k4 := PutU64(a.policyVersion, k5);
    var k3 := PutBytes(a.policyId, k4);
    var k2 := PutBytes(a.boot, k3);
    OptionalIdFits(a.policyId);
    OptionalIdFits(a.definition);
    OptionalIdFits(a.intent);
    ReadPutU64(a.epoch, k2);
    ReadPutBoot(a.boot, k3);
    ReadPutBytes(a.policyId, k4);
    ReadPutU64(a.policyVersion, k5);
    ReadPutDigest(a.policyDigest, k6);
    ReadPutBytes(a.definition, k7);
    ReadPutU64(a.intentGeneration, k8);
    ReadPutBytes(a.intent, k9);
    ReadPutDigest(a.intentDigest, k);
  }

  lemma ReadPutObservationBinding(a: Authority, blank: Authority, k: seq<byte>)
    requires ValidObservationBinding(a)
    requires blank == a.(observation := [], observationGeneration := 0, reporter := [],
                         observationDigest := BLANK_DIGEST, observationEpoch := 0, observationReceivedMs := 0)
    ensures ReadObservationBinding(blank, PutObservationBinding(a, k)) == Got(a, k)
  {
    hide PutBytes, ReadBytes, PutU64, ReadU64, PutI64, ReadI64, PutDigest, ReadDigest, OptionalId;
    var k6 := PutI64(a.observationReceivedMs, k);
    var k5 := PutU64(a.observationEpoch, k6);
    var k4 := PutDigest(a.observationDigest, k5);
    var k3 := PutBytes(a.reporter, k4);
    var k2 := PutU64(a.observationGeneration, k3);
    OptionalIdFits(a.observation);
    OptionalIdFits(a.reporter);
    ReadPutBytes(a.observation, k2);
    ReadPutU64(a.observationGeneration, k3);
    ReadPutBytes(a.reporter, k4);
    ReadPutDigest(a.observationDigest, k5);
    ReadPutU64(a.observationEpoch, k6);
    ReadPutI64(a.observationReceivedMs, k);
  }

  lemma ReadPutAuthority(a: Authority, k: seq<byte>)
    requires ValidAuthority(a)
    ensures ReadAuthority(PutAuthority(a, k)) == Got(a, k)
  {
    hide PutIntentBinding, PutObservationBinding, ReadIntentBinding, ReadObservationBinding, ValidIntentBinding,
         ValidObservationBinding;
    ReadPutIntentBinding(a, PutObservationBinding(a, k));
    ReadPutObservationBinding(a,
                              a.(observation := [], observationGeneration := 0, reporter := [],
                                 observationDigest := BLANK_DIGEST, observationEpoch := 0, observationReceivedMs := 0),
                              k);
  }

  // ---------------------------------------------------------------- attempts

  function PutTransition(t: Transition, k: seq<byte>): seq<byte> {
    PutU8(StateCode(t.from), PutU8(StateCode(t.to), PutU64(t.epoch, PutBytes(t.boot, PutI64(t.atMs,
      PutU16(t.reason, PutU16(t.verificationReason, k)))))))
  }

  predicate ValidTransition(t: Transition) {
    InU64(t.epoch) && InI64(t.atMs) && t.reason <= LAST_REASON && t.verificationReason <= LAST_REASON
  }

  function ReadTransition(s: seq<byte>): Read<Transition> {
    var (from, s1) :- ReadU8(s);
    var (to, s2) :- ReadU8(s1);
    var (epoch, s3) :- ReadU64(s2);
    var (boot, s4) :- ReadBoot(s3);
    var (at, s5) :- ReadI64(s4);
    var (reason, s6) :- ReadU16(s5);
    var (verification, s7) :- ReadU16(s6);
    if StateOf(from).None? || StateOf(to).None? || reason > LAST_REASON || verification > LAST_REASON then Bad else
    Got(Transition(StateOf(from).value, StateOf(to).value, epoch, boot, at, reason, verification), s7)
  }

  lemma ReadTransitionValid(s: seq<byte>)
    ensures ReadTransition(s).Got? ==> ValidTransition(ReadTransition(s).value)
  {
    hide ReadU8, ReadU16, ReadU64, ReadBoot, ReadI64, StateOf;
    forall t: seq<byte> ensures ReadU64(t).Got? ==> ReadU64(t).value < TWO64 { ReadU64InRange(t); }
    forall t: seq<byte> ensures ReadI64(t).Got? ==> InI64(ReadI64(t).value) { ReadI64InRange(t); }
  }

  lemma ReadPutTransition(t: Transition, k: seq<byte>)
    requires ValidTransition(t)
    ensures ReadTransition(PutTransition(t, k)) == Got(t, k)
  {
    hide PutBytes, ReadBoot, PutU8, ReadU8, PutU16, ReadU16, PutU64, ReadU64, PutI64, ReadI64;
    var k7 := PutU16(t.verificationReason, k);
    var k6 := PutU16(t.reason, k7);
    var k5 := PutI64(t.atMs, k6);
    var k4 := PutBytes(t.boot, k5);
    var k3 := PutU64(t.epoch, k4);
    var k2 := PutU8(StateCode(t.to), k3);
    ReadPutU8(StateCode(t.from), k2);
    ReadPutU8(StateCode(t.to), k3);
    ReadPutU64(t.epoch, k4);
    ReadPutBoot(t.boot, k5);
    ReadPutI64(t.atMs, k6);
    ReadPutU16(t.reason, k7);
    ReadPutU16(t.verificationReason, k);
  }

  function PutTransitions(ts: seq<Transition>, k: seq<byte>): seq<byte> {
    if ts == [] then k else PutTransition(ts[0], PutTransitions(ts[1..], k))
  }

  function ReadTransitions(n: nat, s: seq<byte>): (r: Read<seq<Transition>>)
    ensures r.Got? ==> |r.value| == n && forall t :: t in r.value ==> ValidTransition(t)
  {
    if n == 0 then Got([], s) else
    var (t, s1) :- ReadTransition(s);
    ReadTransitionValid(s);
    var (rest, s2) :- ReadTransitions(n - 1, s1);
    Got([t] + rest, s2)
  }

  lemma PutTransitionLength(t: Transition, k: seq<byte>)
    ensures |PutTransition(t, k)| > |k|
  {
    hide LE;
  }

  lemma {:induction false} ReadPutTransitions(ts: seq<Transition>, k: seq<byte>)
    requires forall t :: t in ts ==> ValidTransition(t)
    ensures ReadTransitions(|ts|, PutTransitions(ts, k)) == Got(ts, k)
    ensures |PutTransitions(ts, k)| >= |ts| + |k|
  {
    hide PutTransition, ReadTransition, ValidTransition;
    if ts != [] {
      ReadPutTransition(ts[0], PutTransitions(ts[1..], k));
      PutTransitionLength(ts[0], PutTransitions(ts[1..], k));
      ReadPutTransitions(ts[1..], k);
      assert [ts[0]] + ts[1..] == ts;
    }
  }

  /** What comes before the authority vector. */
  function PutAttemptHead(a: Attempt, k: seq<byte>): seq<byte> {
    PutU64(a.id, PutDigest(a.key, PutBytes(a.scope, PutBytes(a.subject, PutU8(ActionCode(a.action),
      PutU64(a.epoch, PutBytes(a.boot, k)))))))
  }

  function PutAttempt(a: Attempt, k: seq<byte>): seq<byte> {
    PutAttemptHead(a, PutAuthority(a.authority, PutU8(StateCode(a.state), PutI64(a.issuedMs,
      PutU32(|a.transitions|, PutTransitions(a.transitions, k))))))
  }

  predicate ValidAttemptHead(a: Attempt) {
    0 < a.id && InU64(a.id) && ValidIdText(a.scope) && ValidIdText(a.subject) && InU64(a.epoch)
  }

  predicate ValidAttempt(limits: Limits, a: Attempt) {
    && ValidAttemptHead(a)
    && ValidAuthority(a.authority) && a.state != InvalidState && InI64(a.issuedMs)
    && |a.transitions| <= limits.maxTransitions
    && (forall t :: t in a.transitions ==> ValidTransition(t))
  }

  const BLANK_AUTHORITY: Authority :=
    Authority(0, Zeros(16), [], 0, BLANK_DIGEST, [], 0, [], BLANK_DIGEST, [], 0, [], BLANK_DIGEST, 0, 0)

  function ReadAttemptHead(s: seq<byte>): Read<Attempt> {
    var (id, s1) :- ReadU64(s);
    var (key, s2) :- ReadDigest(s1);
    var (scope, s3) :- ReadBytes(s2);
    var (subject, s4) :- ReadBytes(s3);
    var (action, s5) :- ReadU8(s4);
    var (epoch, s6) :- ReadU64(s5);
    var (boot, s7) :- ReadBoot(s6);
    if id == 0 || ActionOf(action).None? || !ValidIdText(scope) || !ValidIdText(subject) then Bad else
    Got(Attempt(id, key, scope, subject, ActionOf(action).value, epoch, boot, BLANK_AUTHORITY, InvalidState, 0, []), s7)
  }

  function ReadAttempt(limits: Limits, s: seq<byte>): Read<Attempt> {
    var (head, s1) :- ReadAttemptHead(s);
    var (authority, s2) :- ReadAuthority(s1);
    var (state, s3) :- ReadU8(s2);
    var (issued, s4) :- ReadI64(s3);
    var (count, s5) :- ReadU32(s4);
    if StateOf(state).None? || StateOf(state).value == InvalidState || count > limits.maxTransitions then Bad else
    var (transitions, s6) :- ReadTransitions(count, s5);
    Got(head.(authority := authority, state := StateOf(state).value, issuedMs := issued, transitions := transitions),
        s6)
  }

  lemma ReadAttemptHeadValid(s: seq<byte>)
    ensures ReadAttemptHead(s).Got? ==> ValidAttemptHead(ReadAttemptHead(s).value)
  {
    hide ReadU8, ReadU64, ReadBoot, ReadBytes, ReadDigest, ActionOf, ValidIdText;
    forall t: seq<byte> ensures ReadU64(t).Got? ==> ReadU64(t).value < TWO64 { ReadU64InRange(t); }
  }

  lemma ReadAttemptValid(limits: Limits, s: seq<byte>)
    ensures ReadAttempt(limits, s).Got? ==> ValidAttempt(limits, ReadAttempt(limits, s).value)
  {
    hide ReadAttemptHead, ReadAuthority, ReadU8, ReadI64, ReadU32, ReadTransitions, StateOf, ValidAuthority,
         ValidIdText;
    ReadAttemptHeadValid(s);
    forall t: seq<byte> ensures ReadI64(t).Got? ==> InI64(ReadI64(t).value) { ReadI64InRange(t); }
    forall t: seq<byte> ensures ReadAuthority(t).Got? ==> ValidAuthority(ReadAuthority(t).value)
    { ReadAuthorityValid(t); }
  }

  lemma ReadPutAttemptHead(a: Attempt, k: seq<byte>)
    requires ValidAttemptHead(a)
    ensures ReadAttemptHead(PutAttemptHead(a, k))
         == Got(a.(authority := BLANK_AUTHORITY, state := InvalidState, issuedMs := 0, transitions := []), k)
  {
    hide PutBytes, ReadBytes, ReadBoot, PutU8, ReadU8, PutU64, ReadU64, PutDigest, ReadDigest, ValidIdText;
    var k7 := PutBytes(a.boot, k);
    var k6 := PutU64(a.epoch, k7);
    var k5 := PutU8(ActionCode(a.action), k6);
    var k4 := PutBytes(a.subject, k5);
    var k3 := PutBytes(a.scope, k4);
    var k2 := PutDigest(a.key, k3);
    IdFits(a.scope);
    IdFits(a.subject);
    ReadPutU64(a.id, k2);
    ReadPutDigest(a.key, k3);
    ReadPutBytes(a.scope, k4);
    ReadPutBytes(a.subject, k5);
    ReadPutU8(ActionCode(a.action), k6);
    ReadPutU64(a.epoch, k7);
    ReadPutBoot(a.boot, k);
  }

  lemma AttemptTransitionsFit(a: Attempt, k: seq<byte>)
    requires Fits(PutAttempt(a, k))
    ensures |PutTransitions(a.transitions, k)| <= MAX_CANONICAL_BYTES
  {
    hide PutTransitions, LE, FromLE;
  }

  lemma ReadPutAttempt(limits: Limits, a: Attempt, k: seq<byte>)
    requires ValidAttempt(limits, a) && Fits(PutAttempt(a, k))
    ensures ReadAttempt(limits, PutAttempt(a, k)) == Got(a, k)
  {
    hide PutAttemptHead, ReadAttemptHead, PutAuthority, ReadAuthority, PutU8, ReadU8, PutI64, ReadI64, PutU32, ReadU32,
         PutTransitions, ReadTransitions, ValidAuthority, ValidAttemptHead, ValidTransition, Fits;
    var k5 := PutU32(|a.transitions|, PutTransitions(a.transitions, k));
    var k4 := PutI64(a.issuedMs, k5);
    var k3 := PutU8(StateCode(a.state), k4);
    var k2 := PutAuthority(a.authority, k3);
    AttemptTransitionsFit(a, k);
    ReadPutTransitions(a.transitions, k);
    ReadPutAttemptHead(a, k2);
    ReadPutAuthority(a.authority, k3);
    ReadPutU8(StateCode(a.state), k4);
    ReadPutI64(a.issuedMs, k5);
    ReadPutU32(|a.transitions|, PutTransitions(a.transitions, k));
  }

  // ---------------------------------------------------------------- outcomes

  function PutOutcomeHead(o: Outcome, k: seq<byte>): seq<byte> {
    PutDigest(o.key, PutBytes(o.scope, PutBytes(o.subject, PutU8(ActionCode(o.action), PutU64(o.attempt,
      PutU64(o.epoch, PutBytes(o.boot, k)))))))
  }

  function PutOutcome(o: Outcome, k: seq<byte>): seq<byte> {
    PutOutcomeHead(o, PutU8(StateCode(o.terminalState), PutU16(o.reason, PutI64(o.committedMs,
      PutBool(o.verified, PutU64(o.verifiedGeneration, PutBool(o.ambiguous, k)))))))
  }

  predicate ValidOutcome(o: Outcome) {
    && ValidIdText(o.scope) && ValidIdText(o.subject) && InU64(o.attempt) && InU64(o.epoch)
    && o.reason <= LAST_REASON && InI64(o.committedMs) && InU64(o.verifiedGeneration)
  }

  function ReadOutcomeHead(s: seq<byte>): Read<Outcome> {
    var (key, s1) :- ReadDigest(s);
    var (scope, s2) :- ReadBytes(s1);
    var (subject, s3) :- ReadBytes(s2);
    var (action, s4) :- ReadU8(s3);
    var (attempt, s5) :- ReadU64(s4);
    var (epoch, s6) :- ReadU64(s5);
    var (boot, s7) :- ReadBoot(s6);
    if ActionOf(action).None? || !ValidIdText(scope) || !ValidIdText(subject) then Bad else
    Got(Outcome(key, scope, subject, ActionOf(action).value, attempt, epoch, boot, InvalidState, 0, 0, false, 0, false),
        s7)
  }

  function ReadOutcome(s: seq<byte>): Read<Outcome> {
    var (head, s1) :- ReadOutcomeHead(s);
    var (terminal, s2) :- ReadU8(s1);
    var (reason, s3) :- ReadU16(s2);
    var (committed, s4) :- ReadI64(s3);
    var (verified, s5) :- ReadBool(s4);
    var (generation, s6) :- ReadU64(s5);
    var (ambiguous, s7) :- ReadBool(s6);
    if StateOf(terminal).None? || reason > LAST_REASON then Bad else
    Got(head.(terminalState := StateOf(terminal).value, reason := reason, committedMs := committed,
              verified := verified, verifiedGeneration := generation, ambiguous := ambiguous), s7)
  }

  lemma ReadOutcomeValid(s: seq<byte>)
    ensures ReadOutcome(s).Got? ==> ValidOutcome(ReadOutcome(s).value)
  {
    hide ReadU8, ReadU16, ReadU64, ReadI64, ReadBool, ReadBoot, ReadBytes, ReadDigest, ActionOf, StateOf, ValidIdText;
    forall t: seq<byte> ensures ReadU64(t).Got? ==> ReadU64(t).value < TWO64 { ReadU64InRange(t); }
    forall t: seq<byte> ensures ReadI64(t).Got? ==> InI64(ReadI64(t).value) { ReadI64InRange(t); }
  }

  lemma ReadPutOutcomeHead(o: Outcome, k: seq<byte>)
    requires ValidOutcome(o)
    ensures ReadOutcomeHead(PutOutcomeHead(o, k))
         == Got(o.(terminalState := InvalidState, reason := 0, committedMs := 0, verified := false,
                   verifiedGeneration := 0, ambiguous := false), k)
  {
    hide PutBytes, ReadBytes, ReadBoot, PutU8, ReadU8, PutU64, ReadU64, PutDigest, ReadDigest, ValidIdText;
    var k7 := PutBytes(o.boot, k);
    var k6 := PutU64(o.epoch, k7);
    var k5 := PutU64(o.attempt, k6);
    var k4 := PutU8(ActionCode(o.action), k5);
    var k3 := PutBytes(o.subject, k4);
    var k2 := PutBytes(o.scope, k3);
    IdFits(o.scope);
    IdFits(o.subject);
    ReadPutDigest(o.key, k2);
    ReadPutBytes(o.scope, k3);
    ReadPutBytes(o.subject, k4);
    ReadPutU8(ActionCode(o.action), k5);
    ReadPutU64(o.attempt, k6);
    ReadPutU64(o.epoch, k7);
    ReadPutBoot(o.boot, k);
  }

  lemma ReadPutOutcome(o: Outcome, k: seq<byte>)
    requires ValidOutcome(o)
    ensures ReadOutcome(PutOutcome(o, k)) == Got(o, k)
  {
    hide PutOutcomeHead, ReadOutcomeHead, PutU8, ReadU8, PutU16, ReadU16, PutU64, ReadU64, PutI64, ReadI64, PutBool,
         ReadBool, ValidIdText;
    var k6 := PutBool(o.ambiguous, k);
    var k5 := PutU64(o.verifiedGeneration, k6);
    var k4 := PutBool(o.verified, k5);
    var k3 := PutI64(o.committedMs, k4);
    var k2 := PutU16(o.reason, k3);
    var k1 := PutU8(StateCode(o.terminalState), k2);
    ReadPutOutcomeHead(o, k1);
    ReadPutU8(StateCode(o.terminalState), k2);
    ReadPutU16(o.reason, k3);
    ReadPutI64(o.committedMs, k4);
    ReadPutBool(o.verified, k5);
    ReadPutU64(o.verifiedGeneration, k6);
    ReadPutBool(o.ambiguous, k);
  }

  // ---------------------------------------------------------------- fences

  /** Four times the longest identity. */
  const MAX_FENCE_DETAIL: nat := 800

  function PutFence(f: Fence, k: seq<byte>): seq<byte> {
    PutBytes(f.id, PutBytes(f.scope, PutBytes(f.subject, PutU64(f.fencedBelow, PutU16(f.reason,
      PutBytes(f.detail, PutI64(f.createdMs, k)))))))
  }

  /** A fence as the type system delivers it: everything but the detail is bounded. */
  predicate TypedFence(f: Fence) {
    && ValidIdText(f.id) && ValidIdText(f.scope) && OptionalId(f.subject) && InU64(f.fencedBelow)
    && f.reason <= LAST_REASON && InI64(f.createdMs)
  }

  predicate ValidFence(f: Fence) {
    TypedFence(f) && |f.detail| <= MAX_FENCE_DETAIL
  }

  function ReadFence(s: seq<byte>): Read<Fence> {
    var (id, s1) :- ReadBytes(s);
    var (scope, s2) :- ReadBytes(s1);
    var (subject, s3) :- ReadBytes(s2);
    var (fencedBelow, s4) :- ReadU64(s3);
    var (reason, s5) :- ReadU16(s4);
    var (detail, s6) :- ReadBytes(s5);
    var (created, s7) :- ReadI64(s6);
    if !ValidIdText(id) || !ValidIdText(scope) || !OptionalId(subject) then Bad else
    if reason > LAST_REASON || |detail| > MAX_FENCE_DETAIL then Bad else
    Got(Fence(id, scope, subject, fencedBelow, reason, detail, created), s7)
  }

  lemma ReadFenceValid(s: seq<byte>)
    ensures ReadFence(s).Got? ==> ValidFence(ReadFence(s).value)
  {
    hide ReadU16, ReadU64, ReadI64, ReadBytes, ValidIdText, OptionalId;
    forall t: seq<byte> ensures ReadU64(t).Got? ==> ReadU64(t).value < TWO64 { ReadU64InRange(t); }
    forall t: seq<byte> ensures ReadI64(t).Got? ==> InI64(ReadI64(t).value) { ReadI64InRange(t); }
  }

  /** A stored fence reads back as itself exactly when its detail is short enough;
      nothing on the way to the journal checks that. */
  lemma ReadPutFence(f: Fence, k: seq<byte>)
    requires TypedFence(f) && Fits(f.detail)
    ensures ReadFence(PutFence(f, k)) == if |f.detail| <= MAX_FENCE_DETAIL then Got(f, k) else Bad
  {
    hide PutBytes, ReadBytes, PutU16, ReadU16, PutU64, ReadU64, PutI64, ReadI64, ValidIdText, OptionalId;
    var k7 := PutI64(f.createdMs, k);
    var k6 := PutBytes(f.detail, k7);
    var k5 := PutU16(f.reason, k6);
    var k4 := PutU64(f.fencedBelow, k5);
    var k3 := PutBytes(f.subject, k4);
    var k2 := PutBytes(f.scope, k3);
    IdFits(f.id);
    IdFits(f.scope);
    OptionalIdFits(f.subject);
    ReadPutBytes(f.id, k2);
    ReadPutBytes(f.scope, k3);
    ReadPutBytes(f.subject, k4);
    ReadPutU64(f.fencedBelow, k5);
    ReadPutU16(f.reason, k6);
    ReadPutBytes(f.detail, k7);
    ReadPutI64(f.createdMs, k);
  }

  // ---------------------------------------------------------------- the idempotency key

  function StateBytes(m: Attributes): seq<byte> {
    PutAttributes(m, [])
  }

  function StateDigest(m: Attributes): Digest {
    Sha256Of(StateBytes(m))
  }

  function KeyBytes(scope: Id, subject: Id, action: ActionKind, a: Authority, desired: Attributes, expected: Attributes)
    : seq<byte>
  {
    PutU16(SCHEMA_VERSION, PutBytes(scope, PutBytes(subject, PutU8(ActionCode(action),
      PutU64(a.intentGeneration, PutDigest(a.intentDigest, PutU64(a.observationGeneration,
        PutDigest(a.observationDigest, PutBytes(a.definition,
          PutDigest(StateDigest(desired), PutDigest(StateDigest(expected), [])))))))))))
  }

  function IdempotencyKey(scope: Id, subject: Id, action: ActionKind, a: Authority, desired: Attributes,
                          expected: Attributes): Digest
  {
    Sha256Of(KeyBytes(scope, subject, action, a, desired, expected))
  }

  /** What a key is computed from. */
  datatype KeyInput = KeyInput(scope: Id, subject: Id, action: ActionKind, authority: Authority, desired: Attributes,
                               expected: Attributes)

  function BytesOfKey(x: KeyInput): seq<byte> {
    KeyBytes(x.scope, x.subject, x.action, x.authority, x.desired, x.expected)
  }

  predicate ValidKeyHead(x: KeyInput) {
    ValidIdText(x.scope) && ValidIdText(x.subject) && ValidAuthority(x.authority)
  }

  predicate ValidKeyInput(limits: Limits, x: KeyInput) {
    && ValidKeyHead(x)
    && ValidAttributes(limits, x.desired) && Fits(StateBytes(x.desired))
    && ValidAttributes(limits, x.expected) && Fits(StateBytes(x.expected))
  }

  lemma StateBytesBind(limits: Limits, a: Attributes, b: Attributes)
    requires ValidAttributes(limits, a) && Fits(StateBytes(a)) && ValidAttributes(limits, b) && Fits(StateBytes(b))
    requires StateDigest(a) == StateDigest(b) && NoCollision(StateBytes(a), StateBytes(b))
    ensures a == b
  {
    ReadPutAttributes(limits, a, []);
    ReadPutAttributes(limits, b, []);
  }

  /** Equal keys name one action: same scope, subject and action, same definition,
      same intent and observation bindings, same desired and expected state, unless
      the digest collides on one of the three pairs of strings named here. */
  lemma IdempotencyKeyBinds(limits: Limits, x: KeyInput, y: KeyInput)
    requires ValidKeyInput(limits, x) && ValidKeyInput(limits, y)
    requires IdempotencyKey(x.scope, x.subject, x.action, x.authority, x.desired, x.expected)
          == IdempotencyKey(y.scope, y.subject, y.action, y.authority, y.desired, y.expected)
    requires NoCollision(BytesOfKey(x), BytesOfKey(y))
    requires NoCollision(StateBytes(x.desired), StateBytes(y.desired))
    requires NoCollision(StateBytes(x.expected), StateBytes(y.expected))
    ensures x.scope == y.scope && x.subject == y.subject && x.action == y.action
    ensures x.authority.definition == y.authority.definition
    ensures x.authority.intentGeneration == y.authority.intentGeneration
    ensures x.authority.intentDigest == y.authority.intentDigest
    ensures x.authority.observationGeneration == y.authority.observationGeneration
    ensures x.authority.observationDigest == y.authority.observationDigest
    ensures x.desired == y.desired && x.expected == y.expected
  {
    KeyBytesBind(x, y);
    StateBytesBind(limits, x.desired, y.desired);
    StateBytesBind(limits, x.expected, y.expected);
  }

  /** The layers of a key, from the outside in. */
  lemma KeyLayers(x: KeyInput)
    returns (k1: seq<byte>, k2: seq<byte>, k3: seq<byte>, k4: seq<byte>, k5: seq<byte>, k6: seq<byte>, k7: seq<byte>,
             k8: seq<byte>, k9: seq<byte>, k10: seq<byte>)
    requires ValidKeyHead(x)
    ensures ReadU16(BytesOfKey(x)) == Got(SCHEMA_VERSION, k1)
    ensures ReadBytes(k1) == Got(x.scope, k2)
    ensures ReadBytes(k2) == Got(x.subject, k3)
    ensures ReadU8(k3) == Got(ActionCode(x.action), k4)
    ensures ReadU64(k4) == Got(x.authority.intentGeneration, k5)
    ensures ReadDigest(k5) == Got(x.authority.intentDigest, k6)
    ensures ReadU64(k6) == Got(x.authority.observationGeneration, k7)
    ensures ReadDigest(k7) == Got(x.authority.observationDigest, k8)
    ensures ReadBytes(k8) == Got(x.authority.definition, k9)
    ensures ReadDigest(k9) == Got(StateDigest(x.desired), k10)
    ensures ReadDigest(k10) == Got(StateDigest(x.expected), [])
  {
    hide PutBytes, ReadBytes, PutU8, ReadU8, PutU16, ReadU16, PutU64, ReadU64, PutDigest, ReadDigest, StateDigest,
         StateBytes, ValidIdText, OptionalId;
    var a := x.authority;
    k10 := PutDigest(StateDigest(x.expected), []);
    k9 := PutDigest(StateDigest(x.desired), k10);
    k8 := PutBytes(a.definition, k9);
    k7 := PutDigest(a.observationDigest, k8);
    k6 := PutU64(a.observationGeneration, k7);
    k5 := PutDigest(a.intentDigest, k6);
    k4 := PutU64(a.intentGeneration, k5);
    k3 := PutU8(ActionCode(x.action), k4);
    k2 := PutBytes(x.subject, k3);
    k1 := PutBytes(x.scope, k2);
    IdFits(x.scope);
    IdFits(x.subject);
    OptionalIdFits(a.definition);
    ReadPutU16(SCHEMA_VERSION, k1);
    ReadPutBytes(x.scope, k2);
    ReadPutBytes(x.subject, k3);
    ReadPutU8(ActionCode(x.action), k4);
    ReadPutU64(a.intentGeneration, k5);
    ReadPutDigest(a.intentDigest, k6);
    ReadPutU64(a.observationGeneration, k7);
    ReadPutDigest(a.observationDigest, k8);
    ReadPutBytes(a.definition, k9);
    ReadPutDigest(StateDigest(x.desired), k10);
    ReadPutDigest(StateDigest(x.expected), []);
  }

  /** What the bytes of a key say by themselves. */
  lemma KeyBytesBind(x: KeyInput, y: KeyInput)
    requires ValidKeyHead(x) && ValidKeyHead(y)
    requires BytesOfKey(x) == BytesOfKey(y)
    ensures x.scope == y.scope && x.subject == y.subject && x.action == y.action
    ensures x.authority.definition == y.authority.definition
    ensures x.authority.intentGeneration == y.authority.intentGeneration
    ensures x.authority.intentDigest == y.authority.intentDigest
    ensures x.authority.observationGeneration == y.authority.observationGeneration
    ensures x.authority.observationDigest == y.authority.observationDigest
    ensures StateDigest(x.desired) == StateDigest(y.desired) && StateDigest(x.expected) == StateDigest(y.expected)
  {
    hide ReadBytes, ReadU8, ReadU16, ReadU64, ReadDigest, BytesOfKey, StateDigest, ValidKeyHead;
    var _, _, _, _, _, _, _, _, _, _ := KeyLayers(x);
    var _, _, _, _, _, _, _, _, _, _ := KeyLayers(y);
  }
}
