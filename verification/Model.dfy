/** The entities of the runtime: identities, documents, policy, authority, attempts, outcomes and fences, with the
    value ranges their types impose. */
module Model {
  import opened Bytes
  import opened Ordering

  // ---------------------------------------------------------------- identity text

  const MAX_IDENTITY_LENGTH: nat := 200

  predicate IsAlphaNumeric(c: byte) {
    97 <= c <= 122 || 65 <= c <= 90 || 48 <= c <= 57
  }

  /** One of  . _ - / :  */
  predicate IsSeparator(c: byte) {
    c == 46 || c == 95 || c == 45 || c == 47 || c == 58
  }

  const SLASH: byte := 47
  const DOT: byte := 46

  predicate ValidIdText(s: Id) {
    && 0 < |s| <= MAX_IDENTITY_LENGTH
    && s[0] != SLASH && s[0] != DOT && s[|s| - 1] != SLASH && s[|s| - 1] != DOT
    && (forall i :: 0 <= i < |s| ==> IsAlphaNumeric(s[i]) || IsSeparator(s[i]))
    && (forall i :: 0 < i < |s| && IsSeparator(s[i]) ==> !IsSeparator(s[i - 1]))
  }

  /** An identity that may also be unset. */
  predicate OptionalId(s: Id) {
    s == [] || ValidIdText(s)
  }

  /** A path component of the text: a stretch between slashes or the ends. */
  ghost predicate Component(s: Id, i: nat, j: nat) {
    && i <= j <= |s|
    && (i == 0 || s[i - 1] == SLASH)
    && (j == |s| || s[j] == SLASH)
  }

  /** The separator rules already exclude path traversal: no component of valid
      text is empty, a dot, or two dots. */
  lemma ValidTextHasNoTraversal(s: Id, i: nat, j: nat)
    requires ValidIdText(s) && Component(s, i, j)
    ensures s[i..j] != [] && s[i..j] != [DOT] && s[i..j] != [DOT, DOT]
  {
    assert IsSeparator(SLASH) && IsSeparator(DOT);
    if i < j {
      assert s[i..j][0] == s[i];
    }
  }

  // ---------------------------------------------------------------- enumerations

  datatype EvidenceClass = UnknownEvidence | RealEvidence | SyntheticEvidence | UnsupportedEvidence

  function EvidenceCode(e: EvidenceClass): byte {
    match e
    case UnknownEvidence => 0
    case RealEvidence => 1
    case SyntheticEvidence => 2
    case UnsupportedEvidence => 3
  }

  function EvidenceOf(c: nat): Option<EvidenceClass> {
    if c == 0 then Some(UnknownEvidence)
    else if c == 1 then Some(RealEvidence)
    else if c == 2 then Some(SyntheticEvidence)
    else if c == 3 then Some(UnsupportedEvidence)
    else None
  }

  datatype ActionKind = NoAction | ApplyDesired | WithdrawSubject

  function ActionCode(a: ActionKind): byte {
    match a
    case NoAction => 0
    case ApplyDesired => 1
    case WithdrawSubject => 2
  }

  function ActionOf(c: nat): Option<ActionKind> {
    if c == 0 then Some(NoAction)
    else if c == 1 then Some(ApplyDesired)
    else if c == 2 then Some(WithdrawSubject)
    else None
  }

  datatype AttemptState =
    | InvalidState | Issued | Dispatched | Acknowledged | Applied
    | Verified | Failed | Abandoned | Superseded | Fenced | Interrupted

  function StateCode(s: AttemptState): byte {
    match s
    case InvalidState => 0
    case Issued => 1
    case Dispatched => 2
    case Acknowledged => 3
    case Applied => 4
    case Verified => 5
    case Failed => 6
    case Abandoned => 7
    case Superseded => 8
    case Fenced => 9
    case Interrupted => 10
  }

  function StateOf(c: nat): Option<AttemptState> {
    if c == 0 then Some(InvalidState)
    else if c == 1 then Some(Issued)
    else if c == 2 then Some(Dispatched)
    else if c == 3 then Some(Acknowledged)
    else if c == 4 then Some(Applied)
    else if c == 5 then Some(Verified)
    else if c == 6 then Some(Failed)
    else if c == 7 then Some(Abandoned)
    else if c == 8 then Some(Superseded)
    else if c == 9 then Some(Fenced)
    else if c == 10 then Some(Interrupted)
    else None
  }

  predicate IsTerminal(s: AttemptState) {
    s.Verified? || s.Failed? || s.Abandoned? || s.Superseded? || s.Fenced? || s.Interrupted?
  }

  predicate IsInconclusive(s: AttemptState) {
    s.Failed? || s.Abandoned? || s.Superseded? || s.Fenced? || s.Interrupted?
  }

  /** Reason codes, by number: sixteen bits. */
  type ReasonCode = c: nat | c < 0x1_0000

  const LAST_REASON: ReasonCode := 803

  const NO_REASON: ReasonCode := 0
  const CLASSIFIED_ALREADY_CONVERGED: ReasonCode := 100
  const CLASSIFIED_SUBJECT_MISSING: ReasonCode := 101
  const CLASSIFIED_SUBJECT_UNEXPECTED: ReasonCode := 102
  const CLASSIFIED_ATTRIBUTE_MISMATCH: ReasonCode := 103
  const CLASSIFIED_ATTRIBUTE_MISSING: ReasonCode := 104
  const CLASSIFIED_ATTRIBUTE_UNEXPECTED: ReasonCode := 105
  const CLASSIFIED_ATTRIBUTE_NOT_COMPARABLE: ReasonCode := 106
  const OBSERVATION_EXPIRED: ReasonCode := 200
  const OBSERVATION_FOREIGN_EPOCH: ReasonCode := 201
  const OBSERVATION_CLOCK_REGRESSION: ReasonCode := 202
  const OBSERVATION_GENERATION_REGRESSED: ReasonCode := 203
  const INTENT_GENERATION_REGRESSED: ReasonCode := 204
  const DUPLICATE_INTENT_IDENTICAL: ReasonCode := 206
  const CONFLICTING_REPUBLISHERS: ReasonCode := 207
  const NO_OBSERVATION_FOR_SCOPE: ReasonCode := 208
  const NO_INTENT_FOR_SCOPE: ReasonCode := 209
  const OBSERVATION_COVERAGE_INCOMPLETE: ReasonCode := 220
  const INTENT_COVERAGE_INCOMPLETE: ReasonCode := 221
  const OBSERVATION_CANNOT_ASSERT_ABSENCE: ReasonCode := 222
  const ATTRIBUTE_COVERAGE_INCOMPLETE: ReasonCode := 223
  const AUTHORITY_PROVEN: ReasonCode := 300
  const AUTHORITY_EPOCH_MISMATCH: ReasonCode := 301
  const AUTHORITY_POLICY_MISMATCH: ReasonCode := 303
  const AUTHORITY_INTENT_GENERATION_MISMATCH: ReasonCode := 304
  const AUTHORITY_OBSERVATION_GENERATION_MISMATCH: ReasonCode := 305
  const AUTHORITY_DEFINITION_MISMATCH: ReasonCode := 306
  const SCOPE_FENCED: ReasonCode := 310
  const FENCE_EPOCH_NOT_NEWER: ReasonCode := 312
  const ATTEMPT_INTERRUPTED_BY_RESTART: ReasonCode := 313
  const ATTEMPT_FENCED_BY_EPOCH_ADVANCE: ReasonCode := 314
  const ACTION_ELIGIBLE: ReasonCode := 400
  const POLICY_FORBIDS_APPLY_MISSING: ReasonCode := 402
  const POLICY_FORBIDS_APPLY_MISMATCH: ReasonCode := 403
  const POLICY_FORBIDS_WITHDRAW_UNEXPECTED: ReasonCode := 404
  const DRIFT_IS_INDETERMINATE: ReasonCode := 405
  const DRIFT_IS_CONFLICTED: ReasonCode := 406
  const SUBJECT_KIND_UNSUPPORTED: ReasonCode := 407
  const PLAN_ACTION_LIMIT_REACHED: ReasonCode := 408
  const PLAN_TRUNCATED: ReasonCode := 409
  const UNSUPPORTED_INPUT: ReasonCode := 410
  const JOURNAL_HEADER_INVALID: ReasonCode := 500
  const JOURNAL_RECORD_DIGEST_MISMATCH: ReasonCode := 502
  const JOURNAL_SEQUENCE_REGRESSION: ReasonCode := 503
  const JOURNAL_TORN_TAIL_RECOVERED: ReasonCode := 504
  const JOURNAL_TRAILING_GARBAGE: ReasonCode := 505
  const JOURNAL_PAYLOAD_LENGTH_INVALID: ReasonCode := 506
  const JOURNAL_RECORD_TYPE_UNKNOWN: ReasonCode := 507
  const JOURNAL_ENUM_INVALID: ReasonCode := 508
  const SNAPSHOT_DIGEST_MISMATCH: ReasonCode := 509
  const SNAPSHOT_STORE_MISMATCH: ReasonCode := 510
  const SNAPSHOT_AHEAD_OF_JOURNAL: ReasonCode := 511
  const DURABLE_WRITE_FAILED: ReasonCode := 512
  const ATTEMPT_ISSUED: ReasonCode := 700
  const ATTEMPT_ACKNOWLEDGED: ReasonCode := 701
  const ATTEMPT_APPLIED: ReasonCode := 702
  const ATTEMPT_VERIFIED: ReasonCode := 703
  const ATTEMPT_FAILED: ReasonCode := 704
  const ATTEMPT_ABANDONED: ReasonCode := 705
  const ATTEMPT_SUPERSEDED: ReasonCode := 706
  const ATTEMPT_TERMINAL_ALREADY: ReasonCode := 707
  const ATTEMPT_UNKNOWN: ReasonCode := 708
  const ATTEMPT_TRANSITION_ILLEGAL: ReasonCode := 709
  const VERIFICATION_NOT_INDEPENDENT: ReasonCode := 710
  const VERIFICATION_NOT_NEWER: ReasonCode := 711

  function ReasonOfState(s: AttemptState): ReasonCode {
    match s
    case Issued => ATTEMPT_ISSUED
    case Dispatched => ATTEMPT_ISSUED
    case Acknowledged => ATTEMPT_ACKNOWLEDGED
    case Applied => ATTEMPT_APPLIED
    case Verified => ATTEMPT_VERIFIED
    case Failed => ATTEMPT_FAILED
    case Abandoned => ATTEMPT_ABANDONED
    case Superseded => ATTEMPT_SUPERSEDED
    case Fenced => ATTEMPT_FENCED_BY_EPOCH_ADVANCE
    case Interrupted => ATTEMPT_INTERRUPTED_BY_RESTART
    case InvalidState => ATTEMPT_UNKNOWN
  }

  datatype StatusCode =
    | Rejected | ConflictState | NotFound | StaleAuthority | LimitExceeded
    | IntegrityFailure | Unsupported | Indeterminate | PreconditionFailed | InternalError

  /** What an operation that can be refused returns. */
  datatype Result<+T> = Ok(value: T) | Refused(code: StatusCode, reason: ReasonCode)

  // ---------------------------------------------------------------- limits

  datatype Limits = Limits(
    maxScopes: nat,
    maxAttributesPerSubject: nat,
    maxSubjectsPerDocument: nat,
    maxJournalPayloadBytes: nat,
    maxJournalBytes: nat,
    maxObservationsPerScope: nat,
    maxAttempts: nat,
    maxOutcomes: nat,
    maxTransitions: nat,
    maxPlanActions: nat,
    maxExplanationSteps: nat)

  // ---------------------------------------------------------------- attribute values

  const MAX_ATTRIBUTE_TEXT: nat := 4096

  datatype AttributeValue =
    | InvalidValue
    | Absent
    | Boolean(flag: bool)
    | Integer(int64: int)
    | Unsigned(uint64: nat)
    | Text(text: seq<byte>)
    | Token(token: seq<byte>)

  function KindCode(v: AttributeValue): byte {
    match v
    case InvalidValue => 0
    case Absent => 1
    case Boolean(_) => 2
    case Integer(_) => 3
    case Unsigned(_) => 4
    case Text(_) => 5
    case Token(_) => 6
  }

  predicate IsValidValue(v: AttributeValue) {
    match v
    case InvalidValue => false
    case Text(t) => |t| <= MAX_ATTRIBUTE_TEXT
    case Token(t) => |t| <= MAX_ATTRIBUTE_TEXT
    case _ => true
  }

  predicate Comparable(a: AttributeValue, b: AttributeValue) {
    KindCode(a) == KindCode(b) && !a.InvalidValue?
  }

  /** The machine types of the numbers a value carries. */
  predicate ValueInRange(v: AttributeValue) {
    match v
    case Integer(i) => 0 - TWO63 <= i < TWO63
    case Unsigned(u) => u < TWO64
    case _ => true
  }

  type Attributes = map<Id, AttributeValue>

  // ---------------------------------------------------------------- documents

  /** One subject of a document: a declared intent or an observation of it. */
  datatype Subject = Subject(completeAttributes: bool, attributes: Attributes)

  datatype Intent = Intent(
    intent: Id,
    scope: Id,
    definition: Id,
    generation: nat,
    policyVersion: nat,
    evidence: EvidenceClass,
    complete: bool,
    subjects: map<Id, Subject>,
    digest: Digest)

  datatype Observation = Observation(
    observation: Id,
    scope: Id,
    reporter: Id,
    generation: nat,
    evidence: EvidenceClass,
    complete: bool,
    authoritativeAbsence: bool,
    receivedEpoch: nat,
    receivedMs: int,
    subjects: map<Id, Subject>,
    digest: Digest)

  /** What a reporter sends: an observation before it is stamped. */
  datatype Submission = Submission(
    observation: Id,
    scope: Id,
    reporter: Id,
    generation: nat,
    evidence: EvidenceClass,
    complete: bool,
    authoritativeAbsence: bool,
    subjects: map<Id, Subject>)

  // ---------------------------------------------------------------- policy

  datatype Policy = Policy(
    id: Id,
    version: nat,
    maxAgeMs: int,
    requireCurrentEpoch: bool,
    requireCoverageForAbsence: bool,
    permitApplyMissing: bool,
    permitApplyMismatched: bool,
    permitWithdrawUnexpected: bool,
    requireCoverageForProof: bool,
    requireIndependentVerification: bool,
    unmanaged: seq<Id>,
    observeOnly: seq<Id>)

  // ---------------------------------------------------------------- authority and lineage

  /** A process incarnation token, 16 bytes. */
  type BootId = b: seq<byte> | |b| == 16 witness seq(16, _ => 0)

  datatype Authority = Authority(
    epoch: nat,
    boot: BootId,
    policyId: Id,
    policyVersion: nat,
    policyDigest: Digest,
    definition: Id,
    intentGeneration: nat,
    intent: Id,
    intentDigest: Digest,
    observation: Id,
    observationGeneration: nat,
    reporter: Id,
    observationDigest: Digest,
    observationEpoch: nat,
    observationReceivedMs: int)

  datatype Transition = Transition(
    from: AttemptState,
    to: AttemptState,
    epoch: nat,
    boot: BootId,
    atMs: int,
    reason: ReasonCode,
    verificationReason: ReasonCode)

  datatype Attempt = Attempt(
    id: nat,
    key: Digest,
    scope: Id,
    subject: Id,
    action: ActionKind,
    epoch: nat,
    boot: BootId,
    authority: Authority,
    state: AttemptState,
    issuedMs: int,
    transitions: seq<Transition>)

  datatype Outcome = Outcome(
    key: Digest,
    scope: Id,
    subject: Id,
    action: ActionKind,
    attempt: nat,
    epoch: nat,
    boot: BootId,
    terminalState: AttemptState,
    reason: ReasonCode,
    committedMs: int,
    verified: bool,
    verifiedGeneration: nat,
    ambiguous: bool)

  /** A fence; an empty subject covers the whole scope. */
  datatype Fence = Fence(
    id: Id,
    scope: Id,
    subject: Id,
    fencedBelow: nat,
    reason: ReasonCode,
    detail: seq<byte>,
    createdMs: int)
}
