/** The identifier of a plan: its canonical content, what the bounded writer takes of that content, and what two plans
    with one identifier have in common. */
module PlanSeal {
  import opened Bytes
  import opened Ordering
  import opened Model
  import opened Canonical
  import opened DocumentCodec
  import opened LineageCodec
  import opened StoreState
  import opened Drift
  import opened Explain
  import opened Planner

  // ---------------------------------------------------------------- content

  /** What a decision contributes to the plan identifier. */
  datatype DecisionContent = DecisionContent(
    scope: Id, subject: Id, drift: DriftClass, reason: ReasonCode, action: ActionKind, disposition: Disposition,
    key: Digest, evidence: EvidenceClass, explanation: seq<Step>)

  /** Neither the boot identity nor any wall-clock reading is part of the content. */
  datatype PlanContent = PlanContent(
    scope: Id, definition: Id, epoch: nat, policyDigest: Digest, policyVersion: nat,
    intent: Id, intentGeneration: nat, intentDigest: Digest,
    observation: Id, observationGeneration: nat, reporter: Id, observationDigest: Digest,
    verdict: Verdict, evidence: EvidenceClass, truncated: bool, scopeReason: ReasonCode, explanation: seq<Step>,
    decisions: seq<DecisionContent>)

  function ContentOfDecision(d: Decision): DecisionContent {
    DecisionContent(d.scope, d.subject, d.drift, d.reason, d.action, d.disposition, d.key, d.evidence, d.explanation)
  }

  function ContentOfDecisions(ds: seq<Decision>): seq<DecisionContent> {
    seq(|ds|, i requires 0 <= i < |ds| => ContentOfDecision(ds[i]))
  }

  function ContentOf(plan: Plan): PlanContent {
    var d, o := plan.evidence.intent, plan.evidence.observation;
    var bare := PlanContent(
      plan.scope, [], plan.live.epoch, plan.policyDigest, plan.policyVersion, [], 0, BLANK_DIGEST, [], 0, [],
      BLANK_DIGEST, plan.verdict, plan.evidence.evidence, plan.truncated, plan.scopeReason, plan.explanation,
                  ContentOfDecisions(plan.decisions));
    var intended :=
      if d.None? then bare
      else bare.(definition := d.value.definition, intent := d.value.intent, intentGeneration := d.value.generation,
                 intentDigest := d.value.digest);
    if o.None? then intended
    else intended.(observation := o.value.observation, observationGeneration := o.value.generation,
                   reporter := o.value.reporter, observationDigest := o.value.digest)
  }

  // ---------------------------------------------------------------- the encoding of the content

  function DriftCode(d: DriftClass): byte {
    match d
    case AlreadyConverged => 1
    case Missing => 2
    case Unexpected => 3
    case Mismatched => 4
    case StaleObservation => 5
    case StaleIntent => 6
    case Conflict => 7
    case UnknownDrift => 8
    case UnsupportedDrift => 9
  }

  function DispositionCode(d: Disposition): byte {
    match d
    case Actionable => 1
    case Blocked => 2
    case Conflicted => 3
    case IndeterminateDecision => 4
    case AlreadySatisfied => 5
    case UnsupportedDecision => 6
    case FencedDecision => 7
  }

  function VerdictCode(v: Verdict): byte {
    match v
    case ConvergedProven => 1
    case ConvergenceRequired => 2
    case ProvenBlocked => 3
    case IndeterminateVerdict => 4
    case SearchLimitReached => 5
  }

  function PutStep(s: Step, k: seq<byte>): seq<byte> {
    PutU16(s.code, PutBytes(s.detail, k))
  }

  function PutSteps(steps: seq<Step>, k: seq<byte>): seq<byte> {
    if steps == [] then k else PutStep(steps[0], PutSteps(steps[1..], k))
  }

  function PutExplanation(steps: seq<Step>, k: seq<byte>): seq<byte> {
    PutU32(|steps|, PutSteps(steps, k))
  }

  function PutDecision(d: DecisionContent, k: seq<byte>): seq<byte> {
    PutBytes(d.scope, PutBytes(d.subject, PutU8(DriftCode(d.drift), PutU16(d.reason, PutU8(ActionCode(d.action),
      PutU8(DispositionCode(d.disposition), PutDigest(d.key, PutU8(EvidenceCode(d.evidence),
        PutExplanation(d.explanation, k)))))))))
  }

  function PutDecisions(ds: seq<DecisionContent>, k: seq<byte>): seq<byte> {
    if ds == [] then k else PutDecision(ds[0], PutDecisions(ds[1..], k))
  }

  /** The documents the plan is bound to. */
  function PutBindings(c: PlanContent, k: seq<byte>): seq<byte> {
    PutBytes(c.intent, PutU64(c.intentGeneration, PutDigest(c.intentDigest, PutBytes(c.observation,
      PutU64(c.observationGeneration, PutBytes(c.reporter, PutDigest(c.observationDigest, k)))))))
  }

  function PutVerdict(c: PlanContent, k: seq<byte>): seq<byte> {
    PutU8(VerdictCode(c.verdict), PutU8(EvidenceCode(c.evidence), PutBool(c.truncated, PutU16(c.scopeReason,
      PutExplanation(c.explanation, k)))))
  }

  /** Everything but the decisions. */
  function PutHead(c: PlanContent, k: seq<byte>): seq<byte> {
    PutU16(SCHEMA_VERSION, PutBytes(c.scope, PutBytes(c.definition, PutU64(c.epoch, PutDigest(c.policyDigest,
      PutU64(c.policyVersion, PutBindings(c, PutVerdict(c, PutU32(|c.decisions|, k)))))))))
  }

  function PutContent(c: PlanContent, k: seq<byte>): seq<byte> {
    PutHead(c, PutDecisions(c.decisions, k))
  }

  // ---------------------------------------------------------------- the encoding loses nothing

  /** Texts and counts that their length prefixes can carry. */
  predicate ValidSteps(steps: seq<Step>) {
    |steps| < TWO32 && forall s :: s in steps ==> |s.detail| <= MAX_CANONICAL_BYTES
  }

  predicate ValidDecision(d: DecisionContent) {
    && |d.scope| <= MAX_CANONICAL_BYTES && |d.subject| <= MAX_CANONICAL_BYTES && ValidSteps(d.explanation)
  }

  predicate ValidBindings(c: PlanContent) {
    && |c.intent| <= MAX_CANONICAL_BYTES && InU64(c.intentGeneration) && |c.observation| <= MAX_CANONICAL_BYTES
    && InU64(c.observationGeneration) && |c.reporter| <= MAX_CANONICAL_BYTES
  }

  predicate ValidHead(c: PlanContent) {
    && |c.scope| <= MAX_CANONICAL_BYTES && |c.definition| <= MAX_CANONICAL_BYTES && InU64(c.epoch)
    && InU64(c.policyVersion) && ValidBindings(c) && ValidSteps(c.explanation) && |c.decisions| < TWO32
  }

  predicate ValidContent(c: PlanContent) {
    ValidHead(c) && forall d :: d in c.decisions ==> ValidDecision(d)
  }

  /** The counters of a plan are 64-bit numbers. */
  predicate Numbered(c: PlanContent) {
    InU64(c.epoch) && InU64(c.policyVersion) && InU64(c.intentGeneration) && InU64(c.observationGeneration)
  }

  lemma {:induction false} StepsFit(steps: seq<Step>, k: seq<byte>)
    requires Fits(PutSteps(steps, k))
    ensures ValidSteps(steps) && |steps| + |k| <= |PutSteps(steps, k)|
  {
    hide LE;
    if steps != [] {
      StepsFit(steps[1..], k);
      assert forall s :: s in steps ==> s == steps[0] || s in steps[1..];
    }
  }

  lemma ExplanationFits(steps: seq<Step>, k: seq<byte>)
    requires Fits(PutExplanation(steps, k))
    ensures ValidSteps(steps) && |k| <= |PutExplanation(steps, k)|
  {
    hide LE, PutSteps, ValidSteps;
    StepsFit(steps, k);
  }

  lemma DecisionFits(d: DecisionContent, k: seq<byte>)
    requires Fits(PutDecision(d, k))
    ensures ValidDecision(d) && |k| < |PutDecision(d, k)|
  {
    hide LE, PutExplanation, ValidSteps;
    ExplanationFits(d.explanation, k);
  }

  lemma {:induction false} DecisionsFit(ds: seq<DecisionContent>, k: seq<byte>)
    requires Fits(PutDecisions(ds, k))
    ensures (forall d :: d in ds ==> ValidDecision(d)) && |ds| + |k| <= |PutDecisions(ds, k)|
  {
    hide PutDecision, ValidDecision;
    if ds != [] {
      DecisionFits(ds[0], PutDecisions(ds[1..], k));
      DecisionsFit(ds[1..], k);
      assert forall d :: d in ds ==> d == ds[0] || d in ds[1..];
    }
  }

  lemma HeadFits(c: PlanContent, k: seq<byte>)
    requires Fits(PutHead(c, k)) && |c.decisions| <= |k| && Numbered(c)
    ensures ValidHead(c)
  {
    hide LE, PutExplanation, ValidSteps;
    ExplanationFits(c.explanation, PutU32(|c.decisions|, k));
  }

  lemma HeadGrows(c: PlanContent, k: seq<byte>)
    ensures |k| <= |PutHead(c, k)|
  {
    hide LE, PutExplanation;
    ExplanationGrows(c.explanation, PutU32(|c.decisions|, k));
  }

  lemma ExplanationGrows(steps: seq<Step>, k: seq<byte>)
    ensures |k| <= |PutExplanation(steps, k)|
  {
    hide LE, PutSteps;
    StepsGrow(steps, k);
  }

  lemma {:induction false} StepsGrow(steps: seq<Step>, k: seq<byte>)
    ensures |k| <= |PutSteps(steps, k)|
  {
    hide LE;
    if steps != [] { StepsGrow(steps[1..], k); }
  }

  /** Whatever fits under the writer's ceiling has texts and counts that fit their prefixes. */
  lemma FittingIsValid(c: PlanContent)
    requires Fits(PutContent(c, [])) && Numbered(c)
    ensures ValidContent(c)
  {
    hide PutHead, PutDecisions, ValidHead, ValidDecision;
    var k := PutDecisions(c.decisions, []);
    HeadGrows(c, k);
    DecisionsFit(c.decisions, []);
    HeadFits(c, k);
  }

  lemma SameU8(a: nat, b: nat, k: seq<byte>, l: seq<byte>)
    requires a < 256 && b < 256 && PutU8(a, k) == PutU8(b, l)
    ensures a == b && k == l
  {
    hide PutU8, ReadU8;
    ReadPutU8(a, k);
    ReadPutU8(b, l);
  }

  lemma SameU16(a: nat, b: nat, k: seq<byte>, l: seq<byte>)
    requires a < TWO16 && b < TWO16 && PutU16(a, k) == PutU16(b, l)
    ensures a == b && k == l
  {
    hide PutU16, ReadU16;
    ReadPutU16(a, k);
    ReadPutU16(b, l);
  }

  lemma SameU32(a: nat, b: nat, k: seq<byte>, l: seq<byte>)
    requires a < TWO32 && b < TWO32 && PutU32(a, k) == PutU32(b, l)
    ensures a == b && k == l
  {
    hide PutU32, ReadU32;
    ReadPutU32(a, k);
    ReadPutU32(b, l);
  }

  lemma SameU64(a: nat, b: nat, k: seq<byte>, l: seq<byte>)
    requires a < TWO64 && b < TWO64 && PutU64(a, k) == PutU64(b, l)
    ensures a == b && k == l
  {
    hide PutU64, ReadU64;
    ReadPutU64(a, k);
    ReadPutU64(b, l);
  }

  lemma SameBytes(a: seq<byte>, b: seq<byte>, k: seq<byte>, l: seq<byte>)
    requires |a| <= MAX_CANONICAL_BYTES && |b| <= MAX_CANONICAL_BYTES && PutBytes(a, k) == PutBytes(b, l)
    ensures a == b && k == l
  {
    hide PutBytes, ReadBytes;
    ReadPutBytes(a, k);
    ReadPutBytes(b, l);
  }

  lemma SameDigest(a: Digest, b: Digest, k: seq<byte>, l: seq<byte>)
    requires PutDigest(a, k) == PutDigest(b, l)
    ensures a == b && k == l
  {
    hide PutDigest, ReadDigest;
    ReadPutDigest(a, k);
    ReadPutDigest(b, l);
  }

  lemma {:induction false} SameSteps(a: seq<Step>, b: seq<Step>, k: seq<byte>, l: seq<byte>)
    requires |a| == |b| && ValidSteps(a) && ValidSteps(b) && PutSteps(a, k) == PutSteps(b, l)
    ensures a == b && k == l
  {
    hide PutU16, PutBytes;
    if a != [] {
      var s, t, k1, l1 := a[0], b[0], PutSteps(a[1..], k), PutSteps(b[1..], l);
      SameU16(s.code, t.code, PutBytes(s.detail, k1), PutBytes(t.detail, l1));
      SameBytes(s.detail, t.detail, k1, l1);
      SameSteps(a[1..], b[1..], k, l);
      assert a == [a[0]] + a[1..] && b == [b[0]] + b[1..];
    }
  }

  lemma SameExplanation(a: seq<Step>, b: seq<Step>, k: seq<byte>, l: seq<byte>)
    requires ValidSteps(a) && ValidSteps(b) && PutExplanation(a, k) == PutExplanation(b, l)
    ensures a == b && k == l
  {
    hide PutU32, PutSteps;
    SameU32(|a|, |b|, PutSteps(a, k), PutSteps(b, l));
    SameSteps(a, b, k, l);
  }

  lemma SameDecision(a: DecisionContent, b: DecisionContent, k: seq<byte>, l: seq<byte>)
    requires ValidDecision(a) && ValidDecision(b) && PutDecision(a, k) == PutDecision(b, l)
    ensures a == b && k == l
  {
    hide PutBytes, PutU8, PutU16, PutDigest, PutExplanation, ValidSteps;
    var k8, l8 := PutExplanation(a.explanation, k), PutExplanation(b.explanation, l);
    var k7, l7 := PutU8(EvidenceCode(a.evidence), k8), PutU8(EvidenceCode(b.evidence), l8);
    var k6, l6 := PutDigest(a.key, k7), PutDigest(b.key, l7);
    var k5, l5 := PutU8(DispositionCode(a.disposition), k6), PutU8(DispositionCode(b.disposition), l6);
    var k4, l4 := PutU8(ActionCode(a.action), k5), PutU8(ActionCode(b.action), l5);
    var k3, l3 := PutU16(a.reason, k4), PutU16(b.reason, l4);
    var k2, l2 := PutU8(DriftCode(a.drift), k3), PutU8(DriftCode(b.drift), l3);
    SameBytes(a.scope, b.scope, PutBytes(a.subject, k2), PutBytes(b.subject, l2));
    SameBytes(a.subject, b.subject, k2, l2);
    SameU8(DriftCode(a.drift), DriftCode(b.drift), k3, l3);
    SameU16(a.reason, b.reason, k4, l4);
    SameU8(ActionCode(a.action), ActionCode(b.action), k5, l5);
    SameU8(DispositionCode(a.disposition), DispositionCode(b.disposition), k6, l6);
    SameDigest(a.key, b.key, k7, l7);
    SameU8(EvidenceCode(a.evidence), EvidenceCode(b.evidence), k8, l8);
    SameExplanation(a.explanation, b.explanation, k, l);
  }

  lemma {:induction false} SameDecisions(a: seq<DecisionContent>, b: seq<DecisionContent>, k: seq<byte>, l: seq<byte>)
    requires |a| == |b| && PutDecisions(a, k) == PutDecisions(b, l)
    requires (forall d :: d in a ==> ValidDecision(d)) && (forall d :: d in b ==> ValidDecision(d))
    ensures a == b && k == l
  {
    hide PutDecision, ValidDecision;
    if a != [] {
      SameDecision(a[0], b[0], PutDecisions(a[1..], k), PutDecisions(b[1..], l));
      SameDecisions(a[1..], b[1..], k, l);
      assert a == [a[0]] + a[1..] && b == [b[0]] + b[1..];
    }
  }

  lemma SameBindings(a: PlanContent, b: PlanContent, k: seq<byte>, l: seq<byte>)
    requires ValidBindings(a) && ValidBindings(b) && PutBindings(a, k) == PutBindings(b, l)
    ensures a.intent == b.intent && a.intentGeneration == b.intentGeneration && a.intentDigest == b.intentDigest
    ensures a.observation == b.observation && a.observationGeneration == b.observationGeneration
    ensures a.reporter == b.reporter && a.observationDigest == b.observationDigest && k == l
  {
    hide PutBytes, PutU64, PutDigest;
    var k6, l6 := PutDigest(a.observationDigest, k), PutDigest(b.observationDigest, l);
    var k5, l5 := PutBytes(a.reporter, k6), PutBytes(b.reporter, l6);
    var k4, l4 := PutU64(a.observationGeneration, k5), PutU64(b.observationGeneration, l5);
    var k3, l3 := PutBytes(a.observation, k4), PutBytes(b.observation, l4);
    var k2, l2 := PutDigest(a.intentDigest, k3), PutDigest(b.intentDigest, l3);
    SameBytes(a.intent, b.intent, PutU64(a.intentGeneration, k2), PutU64(b.intentGeneration, l2));
    SameU64(a.intentGeneration, b.intentGeneration, k2, l2);
    SameDigest(a.intentDigest, b.intentDigest, k3, l3);
    SameBytes(a.observation, b.observation, k4, l4);
    SameU64(a.observationGeneration, b.observationGeneration, k5, l5);
    SameBytes(a.reporter, b.reporter, k6, l6);
    SameDigest(a.observationDigest, b.observationDigest, k, l);
  }

  lemma SameVerdict(a: PlanContent, b: PlanContent, k: seq<byte>, l: seq<byte>)
    requires ValidSteps(a.explanation) && ValidSteps(b.explanation) && PutVerdict(a, k) == PutVerdict(b, l)
    ensures a.verdict == b.verdict && a.evidence == b.evidence && a.truncated == b.truncated
    ensures a.scopeReason == b.scopeReason && a.explanation == b.explanation && k == l
  {
    hide PutU8, PutU16, PutExplanation, ValidSteps;
    var k4, l4 := PutExplanation(a.explanation, k), PutExplanation(b.explanation, l);
    var k3, l3 := PutU16(a.scopeReason, k4), PutU16(b.scopeReason, l4);
    var k2, l2 := PutBool(a.truncated, k3), PutBool(b.truncated, l3);
    var k1, l1 := PutU8(EvidenceCode(a.evidence), k2), PutU8(EvidenceCode(b.evidence), l2);
    SameU8(VerdictCode(a.verdict), VerdictCode(b.verdict), k1, l1);
    SameU8(EvidenceCode(a.evidence), EvidenceCode(b.evidence), k2, l2);
    SameU8(if a.truncated then 1 else 0, if b.truncated then 1 else 0, k3, l3);
    SameU16(a.scopeReason, b.scopeReason, k4, l4);
    SameExplanation(a.explanation, b.explanation, k, l);
  }

  lemma SameHead(a: PlanContent, b: PlanContent, k: seq<byte>, l: seq<byte>)
    requires ValidHead(a) && ValidHead(b) && PutHead(a, k) == PutHead(b, l)
    ensures a == b.(decisions := a.decisions) && |a.decisions| == |b.decisions| && k == l
  {
    hide PutU16, PutU32, PutU64, PutBytes, PutDigest, PutBindings, PutVerdict, ValidSteps;
    var k7, l7 := PutU32(|a.decisions|, k), PutU32(|b.decisions|, l);
    var k6, l6 := PutBindings(a, PutVerdict(a, k7)), PutBindings(b, PutVerdict(b, l7));
    var k5, l5 := PutU64(a.policyVersion, k6), PutU64(b.policyVersion, l6);
    var k4, l4 := PutDigest(a.policyDigest, k5), PutDigest(b.policyDigest, l5);
    var k3, l3 := PutU64(a.epoch, k4), PutU64(b.epoch, l4);
    var k2, l2 := PutBytes(a.definition, k3), PutBytes(b.definition, l3);
    SameU16(SCHEMA_VERSION, SCHEMA_VERSION, PutBytes(a.scope, k2), PutBytes(b.scope, l2));
    SameBytes(a.scope, b.scope, k2, l2);
    SameBytes(a.definition, b.definition, k3, l3);
    SameU64(a.epoch, b.epoch, k4, l4);
    SameDigest(a.policyDigest, b.policyDigest, k5, l5);
    SameU64(a.policyVersion, b.policyVersion, k6, l6);
    SameBindings(a, b, PutVerdict(a, k7), PutVerdict(b, l7));
    SameVerdict(a, b, k7, l7);
    SameU32(|a.decisions|, |b.decisions|, k, l);
  }

  lemma SameContent(a: PlanContent, b: PlanContent)
    requires ValidContent(a) && ValidContent(b) && PutContent(a, []) == PutContent(b, [])
    ensures a == b
  {
    hide PutHead, PutDecisions, ValidHead, ValidDecision;
    SameHead(a, b, PutDecisions(a.decisions, []), PutDecisions(b.decisions, []));
    SameDecisions(a.decisions, b.decisions, [], []);
  }

  // ---------------------------------------------------------------- sealing

  /** What the writer holds after a step, an explanation, a decision and so on. */
  function SealStep(w: Written, s: Step): Written {
    PushBytes(PushLE(w, s.code, 2), s.detail)
  }

  function SealSteps(w: Written, steps: seq<Step>): Written
    decreases |steps|
  {
    if steps == [] then w else SealSteps(SealStep(w, steps[0]), steps[1..])
  }

  function SealExplanation(w: Written, steps: seq<Step>): Written {
    SealSteps(PushLE(w, |steps|, 4), steps)
  }

  function SealDecision(w: Written, d: DecisionContent): Written {
    var w1 := PushLE(PushBytes(PushBytes(w, d.scope), d.subject), DriftCode(d.drift), 1);
    var w2 := PushLE(PushLE(PushLE(w1, d.reason, 2), ActionCode(d.action), 1), DispositionCode(d.disposition), 1);
    SealExplanation(PushLE(Push(w2, d.key), EvidenceCode(d.evidence), 1), d.explanation)
  }

  function SealDecisions(w: Written, ds: seq<DecisionContent>): Written
    decreases |ds|
  {
    if ds == [] then w else SealDecisions(SealDecision(w, ds[0]), ds[1..])
  }

  function SealBindings(w: Written, c: PlanContent): Written {
    var w1 := Push(PushLE(PushBytes(w, c.intent), c.intentGeneration, 8), c.intentDigest);
    Push(PushBytes(PushLE(PushBytes(w1, c.observation), c.observationGeneration, 8), c.reporter), c.observationDigest)
  }

  function SealVerdict(w: Written, c: PlanContent): Written {
    var w1 := PushLE(PushLE(w, VerdictCode(c.verdict), 1), EvidenceCode(c.evidence), 1);
    SealExplanation(PushLE(PushLE(w1, if c.truncated then 1 else 0, 1), c.scopeReason, 2), c.explanation)
  }

  function SealHead(w: Written, c: PlanContent): Written {
    var w1 := PushLE(PushBytes(PushBytes(PushLE(w, SCHEMA_VERSION, 2), c.scope), c.definition), c.epoch, 8);
    PushLE(SealVerdict(SealBindings(PushLE(Push(w1, c.policyDigest), c.policyVersion, 8), c), c), |c.decisions|, 4)
  }

  function SealContent(w: Written, c: PlanContent): Written {
    SealDecisions(SealHead(w, c), c.decisions)
  }

  /** The plan identifier: the digest of what the writer took. The runtime shows it in hexadecimal. */
  function PlanId(plan: Plan): Digest {
    Sha256Of(SealContent(NOTHING_WRITTEN, ContentOf(plan)).buffer)
  }

  lemma {:induction false} SealsSteps(w: Written, full: seq<byte>, steps: seq<Step>, k: seq<byte>)
    requires Ahead(w, full, PutSteps(steps, k))
    ensures Ahead(SealSteps(w, steps), full, k)
    decreases |steps|
  {
    hide Ahead, PushLE, PushBytes, PutU16, PutBytes, PutLE;
    if steps != [] {
      var k1 := PutSteps(steps[1..], k);
      AheadU16(w, full, steps[0].code, PutBytes(steps[0].detail, k1));
      AheadBytes(PushLE(w, steps[0].code, 2), full, steps[0].detail, k1);
      SealsSteps(SealStep(w, steps[0]), full, steps[1..], k);
    }
  }

  lemma AheadU16(w: Written, full: seq<byte>, v: nat, k: seq<byte>)
    requires Ahead(w, full, PutU16(v, k))
    ensures Ahead(PushLE(w, v, 2), full, k)
  {
    hide Ahead, PushLE, PutLE;
    AheadLE(w, full, v, 2, k);
  }

  lemma SealsExplanation(w: Written, full: seq<byte>, steps: seq<Step>, k: seq<byte>)
    requires Ahead(w, full, PutExplanation(steps, k))
    ensures Ahead(SealExplanation(w, steps), full, k)
  {
    hide Ahead, PushLE, PutLE, PutSteps, SealSteps;
    AheadLE(w, full, |steps|, 4, PutSteps(steps, k));
    SealsSteps(PushLE(w, |steps|, 4), full, steps, k);
  }

  lemma SealsDecision(w: Written, full: seq<byte>, d: DecisionContent, k: seq<byte>)
    requires Ahead(w, full, PutDecision(d, k))
    ensures Ahead(SealDecision(w, d), full, k)
  {
    hide Ahead, Push, PushLE, PushBytes, PutLE, PutBytes, PutDigest, PutExplanation, SealExplanation;
    var k8 := PutExplanation(d.explanation, k);
    var k7 := PutU8(EvidenceCode(d.evidence), k8);
    var k6 := PutDigest(d.key, k7);
    var k5 := PutU8(DispositionCode(d.disposition), k6);
    var k4 := PutU8(ActionCode(d.action), k5);
    var k3 := PutU16(d.reason, k4);
    var k2 := PutU8(DriftCode(d.drift), k3);
    var k1 := PutBytes(d.subject, k2);
    AheadBytes(w, full, d.scope, k1);
    var w1 := PushBytes(w, d.scope);
    AheadBytes(w1, full, d.subject, k2);
    var w2 := PushBytes(w1, d.subject);
    AheadLE(w2, full, DriftCode(d.drift), 1, k3);
    var w3 := PushLE(w2, DriftCode(d.drift), 1);
    AheadLE(w3, full, d.reason, 2, k4);
    var w4 := PushLE(w3, d.reason, 2);
    AheadLE(w4, full, ActionCode(d.action), 1, k5);
    var w5 := PushLE(w4, ActionCode(d.action), 1);
    AheadLE(w5, full, DispositionCode(d.disposition), 1, k6);
    var w6 := PushLE(w5, DispositionCode(d.disposition), 1);
    AheadDigest(w6, full, d.key, k7);
    var w7 := Push(w6, d.key);
    AheadLE(w7, full, EvidenceCode(d.evidence), 1, k8);
    SealsExplanation(PushLE(w7, EvidenceCode(d.evidence), 1), full, d.explanation, k);
  }

  lemma AheadDigest(w: Written, full: seq<byte>, d: Digest, k: seq<byte>)
    requires Ahead(w, full, PutDigest(d, k))
    ensures Ahead(Push(w, d), full, k)
  {
    hide Ahead, Push;
    AheadChunk(w, full, d, k);
  }

  lemma {:induction false} SealsDecisions(w: Written, full: seq<byte>, ds: seq<DecisionContent>, k: seq<byte>)
    requires Ahead(w, full, PutDecisions(ds, k))
    ensures Ahead(SealDecisions(w, ds), full, k)
    decreases |ds|
  {
    hide Ahead, PutDecision, SealDecision;
    if ds != [] {
      SealsDecision(w, full, ds[0], PutDecisions(ds[1..], k));
      SealsDecisions(SealDecision(w, ds[0]), full, ds[1..], k);
    }
  }

  lemma SealsBindings(w: Written, full: seq<byte>, c: PlanContent, k: seq<byte>)
    requires Ahead(w, full, PutBindings(c, k))
    ensures Ahead(SealBindings(w, c), full, k)
  {
    hide Ahead, Push, PushLE, PushBytes, PutLE, PutBytes, PutDigest;
    var k6 := PutDigest(c.observationDigest, k);
    var k5 := PutBytes(c.reporter, k6);
    var k4 := PutU64(c.observationGeneration, k5);
    var k3 := PutBytes(c.observation, k4);
    var k2 := PutDigest(c.intentDigest, k3);
    var k1 := PutU64(c.intentGeneration, k2);
    AheadBytes(w, full, c.intent, k1);
    var w1 := PushBytes(w, c.intent);
    AheadLE(w1, full, c.intentGeneration, 8, k2);
    var w2 := PushLE(w1, c.intentGeneration, 8);
    AheadDigest(w2, full, c.intentDigest, k3);
    var w3 := Push(w2, c.intentDigest);
    AheadBytes(w3, full, c.observation, k4);
    var w4 := PushBytes(w3, c.observation);
    AheadLE(w4, full, c.observationGeneration, 8, k5);
    var w5 := PushLE(w4, c.observationGeneration, 8);
    AheadBytes(w5, full, c.reporter, k6);
    AheadDigest(PushBytes(w5, c.reporter), full, c.observationDigest, k);
  }

  lemma SealsVerdict(w: Written, full: seq<byte>, c: PlanContent, k: seq<byte>)
    requires Ahead(w, full, PutVerdict(c, k))
    ensures Ahead(SealVerdict(w, c), full, k)
  {
    hide Ahead, PushLE, PutLE, PutExplanation, SealExplanation;
    var k4 := PutExplanation(c.explanation, k);
    var k3 := PutU16(c.scopeReason, k4);
    var k2 := PutBool(c.truncated, k3);
    var k1 := PutU8(EvidenceCode(c.evidence), k2);
    AheadLE(w, full, VerdictCode(c.verdict), 1, k1);
    var w1 := PushLE(w, VerdictCode(c.verdict), 1);
    AheadLE(w1, full, EvidenceCode(c.evidence), 1, k2);
    var w2 := PushLE(w1, EvidenceCode(c.evidence), 1);
    AheadLE(w2, full, if c.truncated then 1 else 0, 1, k3);
    var w3 := PushLE(w2, if c.truncated then 1 else 0, 1);
    AheadLE(w3, full, c.scopeReason, 2, k4);
    SealsExplanation(PushLE(w3, c.scopeReason, 2), full, c.explanation, k);
  }

  lemma SealsHead(w: Written, full: seq<byte>, c: PlanContent, k: seq<byte>)
    requires Ahead(w, full, PutHead(c, k))
    ensures Ahead(SealHead(w, c), full, k)
  {
    hide Ahead, Push, PushLE, PushBytes, PutLE, PutBytes, PutDigest, PutBindings, SealBindings, PutVerdict, SealVerdict;
    var k7 := PutU32(|c.decisions|, k);
    var k6 := PutVerdict(c, k7);
    var k5 := PutBindings(c, k6);
    var k4 := PutU64(c.policyVersion, k5);
    var k3 := PutDigest(c.policyDigest, k4);
    var k2 := PutU64(c.epoch, k3);
    var k1 := PutBytes(c.definition, k2);
    AheadLE(w, full, SCHEMA_VERSION, 2, PutBytes(c.scope, k1));
    var w1 := PushLE(w, SCHEMA_VERSION, 2);
    AheadBytes(w1, full, c.scope, k1);
    var w2 := PushBytes(w1, c.scope);
    AheadBytes(w2, full, c.definition, k2);
    var w3 := PushBytes(w2, c.definition);
    AheadLE(w3, full, c.epoch, 8, k3);
    var w4 := PushLE(w3, c.epoch, 8);
    AheadDigest(w4, full, c.policyDigest, k4);
    var w5 := Push(w4, c.policyDigest);
    AheadLE(w5, full, c.policyVersion, 8, k5);
    var w6 := PushLE(w5, c.policyVersion, 8);
    SealsBindings(w6, full, c, k6);
    var w7 := SealBindings(w6, c);
    SealsVerdict(w7, full, c, k7);
    AheadLE(SealVerdict(w7, c), full, |c.decisions|, 4, k);
  }

  /** The writer takes the whole encoding exactly when that fits under its ceiling. */
  lemma SealedWhole(c: PlanContent)
    ensures SealContent(NOTHING_WRITTEN, c).ok <==> Fits(PutContent(c, []))
    ensures Fits(PutContent(c, [])) ==> SealContent(NOTHING_WRITTEN, c).buffer == PutContent(c, [])
  {
    hide PutHead, SealHead, PutDecisions, SealDecisions;
    var full, k := PutContent(c, []), PutDecisions(c.decisions, []);
    assert full == [] + full;
    SealsHead(NOTHING_WRITTEN, full, c, k);
    SealsDecisions(SealHead(NOTHING_WRITTEN, c), full, c.decisions, []);
    var end := SealContent(NOTHING_WRITTEN, c);
    assert end.buffer + [] == end.buffer;
  }

  /** Two plans have one identifier exactly when they have one content, explanations included, while their encodings
      fit under the writer's ceiling and unless the digest collides on them. */
  lemma PlanIdBinds(p: Plan, q: Plan)
    requires Numbered(ContentOf(p)) && Numbered(ContentOf(q))
    requires Fits(PutContent(ContentOf(p), [])) && Fits(PutContent(ContentOf(q), []))
    requires NoCollision(PutContent(ContentOf(p), []), PutContent(ContentOf(q), []))
    ensures PlanId(p) == PlanId(q) <==> ContentOf(p) == ContentOf(q)
  {
    hide ContentOf, PutContent, SealContent, ValidContent, Numbered, Fits;
    SealedWhole(ContentOf(p));
    SealedWhole(ContentOf(q));
    if PlanId(p) == PlanId(q) {
      FittingIsValid(ContentOf(p));
      FittingIsValid(ContentOf(q));
      SameContent(ContentOf(p), ContentOf(q));
    }
  }

  // ---------------------------------------------------------------- past the ceiling

  /** The first `n` decisions already take the encoding past the ceiling. */
  predicate Overflows(c: PlanContent, n: nat)
    requires n <= |c.decisions|
  {
    !Fits(PutHead(c, PutDecisions(c.decisions[..n], [])))
  }

  lemma {:induction false} SealSplit(w: Written, a: seq<DecisionContent>, b: seq<DecisionContent>)
    ensures SealDecisions(w, a + b) == SealDecisions(SealDecisions(w, a), b)
    decreases |a|
  {
    hide SealDecision;
    if a == [] {
      assert a + b == b;
    } else {
      assert (a + b)[1..] == a[1..] + b;
      SealSplit(SealDecision(w, a[0]), a[1..], b);
    }
  }

  lemma {:induction false} FailedSteps(w: Written, steps: seq<Step>)
    requires !w.ok
    ensures SealSteps(w, steps) == w
    decreases |steps|
  {
    hide PushLE;
    if steps != [] {
      FailedStays(w, steps[0].code, 2);
      FailedStays(w, |steps[0].detail|, 4);
      FailedSteps(w, steps[1..]);
    }
  }

  lemma FailedDecision(w: Written, d: DecisionContent)
    requires !w.ok
    ensures SealDecision(w, d) == w
  {
    hide PushLE, SealSteps;
    forall v: nat, width: nat ensures PushLE(w, v, width) == w { FailedStays(w, v, width); }
    FailedSteps(w, d.explanation);
  }

  lemma {:induction false} FailedDecisions(w: Written, ds: seq<DecisionContent>)
    requires !w.ok
    ensures SealDecisions(w, ds) == w
    decreases |ds|
  {
    hide SealDecision;
    if ds != [] {
      FailedDecision(w, ds[0]);
      FailedDecisions(w, ds[1..]);
    }
  }

  /** What the writer holds then. */
  lemma OverflowStops(c: PlanContent, n: nat)
    requires n <= |c.decisions| && Overflows(c, n)
    ensures SealContent(NOTHING_WRITTEN, c)
         == SealDecisions(SealHead(NOTHING_WRITTEN, c), c.decisions[..n])
  {
    hide PutHead, SealHead, PutDecisions, SealDecisions;
    var front, back := c.decisions[..n], c.decisions[n..];
    var k := PutDecisions(front, []);
    var full := PutHead(c, k);
    assert full == [] + full && c.decisions == front + back;
    SealsHead(NOTHING_WRITTEN, full, c, k);
    SealsDecisions(SealHead(NOTHING_WRITTEN, c), full, front, []);
    var w := SealDecisions(SealHead(NOTHING_WRITTEN, c), front);
    assert w.buffer + [] == w.buffer;
    SealSplit(SealHead(NOTHING_WRITTEN, c), front, back);
    FailedDecisions(w, back);
  }

  /** Past the ceiling the identifier covers nothing: plans that differ only in decisions after the overflow share
      it. */
  lemma PlanIdForgets(p: Plan, q: Plan, n: nat)
    requires n <= |ContentOf(p).decisions| == |ContentOf(q).decisions|
    requires ContentOf(q) == ContentOf(p).(decisions := ContentOf(q).decisions)
    requires ContentOf(q).decisions[..n] == ContentOf(p).decisions[..n] && Overflows(ContentOf(p), n)
    ensures PlanId(p) == PlanId(q)
  {
    hide ContentOf, SealDecisions, PutDecisions, Fits;
    var c, d := ContentOf(p), ContentOf(q);
    HeadsAlike(c, d);
    OverflowStops(c, n);
    OverflowStops(d, n);
  }

  lemma HeadsAlike(c: PlanContent, d: PlanContent)
    requires d == c.(decisions := d.decisions) && |d.decisions| == |c.decisions|
    ensures SealHead(NOTHING_WRITTEN, d) == SealHead(NOTHING_WRITTEN, c)
    ensures forall k :: PutHead(d, k) == PutHead(c, k)
  {
    hide PushLE, Push, PushBytes, SealSteps, PutLE, PutBytes, PutDigest, PutSteps;
  }

  function Copies(d: Decision, n: nat): (ds: seq<Decision>)
    ensures |ds| == n && forall i :: 0 <= i < n ==> ds[i] == d
  {
    seq(n, _ => d)
  }

  lemma {:induction false} DecisionsGrow(ds: seq<DecisionContent>, k: seq<byte>)
    ensures |ds| + |k| <= |PutDecisions(ds, k)|
    decreases |ds|
  {
    hide PutDecision;
    if ds != [] {
      DecisionGrows(ds[0], PutDecisions(ds[1..], k));
      DecisionsGrow(ds[1..], k);
    }
  }

  lemma DecisionGrows(d: DecisionContent, k: seq<byte>)
    ensures |k| < |PutDecision(d, k)|
  {
    hide LE, PutExplanation;
    ExplanationGrows(d.explanation, k);
  }

  /** Two plans that differ in their last decision and share an identifier, whatever the digest function is. */
  lemma SharedIdentifier(p: Plan, d: Decision, e: Decision) returns (x: Plan, y: Plan)
    requires ContentOfDecision(d) != ContentOfDecision(e)
    ensures ContentOf(x) != ContentOf(y) && PlanId(x) == PlanId(y)
  {
    hide PlanId, PutHead, PutDecisions, ContentOfDecision;
    var n := MAX_CANONICAL_BYTES + 1;
    x := p.(decisions := Copies(d, n) + [d]);
    y := p.(decisions := Copies(d, n) + [e]);
    var c := ContentOf(x);
    assert c.decisions[n] != ContentOf(y).decisions[n];
    DecisionsGrow(c.decisions[..n], []);
    HeadGrows(c, PutDecisions(c.decisions[..n], []));
    assert ContentOf(y).decisions[..n] == c.decisions[..n];
    PlanIdForgets(x, y, n);
  }

  // ---------------------------------------------------------------- the writer's calls

  method EncodeSteps(w: CanonicalWriter, steps: seq<Step>)
    requires w.Valid()
    modifies w
    ensures w.Valid() && w.State() == SealExplanation(old(w.State()), steps)
  {
    hide Push, PushLE, PushBytes, Emitted, LE, PutBytes;
    w.WriteLE(|steps| % TWO32, 4);
    CountWraps(old(w.State()), |steps|);
    ghost var after := SealSteps(w.State(), steps);
    var n := 0;
    while n < |steps|
      invariant 0 <= n <= |steps| && w.Valid()
      invariant SealSteps(w.State(), steps[n..]) == after
    {
      assert steps[n..][1..] == steps[n + 1..];
      w.WriteLE(steps[n].code, 2);
      w.WriteBytes(steps[n].detail);
      n := n + 1;
    }
  }

  /** Only the low 32 bits of a count are written. */
  lemma CountWraps(w: Written, n: nat)
    ensures PushLE(w, n % TWO32, 4) == PushLE(w, n, 4)
  {
    hide Push;
    WidthWraps(w, n, 4);
    Pow256Values();
  }

  lemma {:induction false} WidthWraps(w: Written, n: nat, width: nat)
    ensures PushLE(w, n % Pow256(width), width) == PushLE(w, n, width)
    decreases width
  {
    hide Push;
    if width > 0 {
      LowDigit(n, Pow256(width - 1));
      WidthWraps(Push(w, [n % 256]), n / 256, width - 1);
    }
  }

  lemma LowDigit(n: nat, p: nat)
    requires p > 0
    ensures n % (256 * p) % 256 == n % 256 && n % (256 * p) / 256 == n / 256 % p
  {
    var q, r := n / 256, n % 256;
    var a, b := q / p, q % p;
    Regrouped(p, a, b, r);
    DivModUnique(n, 256 * p, a, 256 * b + r);
  }

  lemma Regrouped(p: nat, a: nat, b: nat, r: nat)
    ensures 256 * (p * a + b) + r == (256 * p) * a + (256 * b + r)
  {}

  method EncodeDecision(w: CanonicalWriter, d: DecisionContent)
    requires w.Valid()
    modifies w
    ensures w.Valid() && w.State() == SealDecision(old(w.State()), d)
  {
    hide Push, PushLE, PushBytes, Emitted, LE, PutBytes, SealExplanation;
    w.WriteBytes(d.scope);
    w.WriteBytes(d.subject);
    w.WriteLE(DriftCode(d.drift), 1);
    w.WriteLE(d.reason, 2);
    w.WriteLE(ActionCode(d.action), 1);
    w.WriteLE(DispositionCode(d.disposition), 1);
    w.WriteDigest(d.key);
    w.WriteLE(EvidenceCode(d.evidence), 1);
    EncodeSteps(w, d.explanation);
  }

  method EncodeHead(w: CanonicalWriter, c: PlanContent)
    requires w.Valid()
    modifies w
    ensures w.Valid() && w.State() == SealHead(old(w.State()), c)
  {
    hide Push, PushLE, PushBytes, Emitted, LE, PutBytes, SealExplanation;
    w.WriteLE(SCHEMA_VERSION, 2);
    w.WriteBytes(c.scope);
    w.WriteBytes(c.definition);
    w.WriteLE(c.epoch, 8);
    w.WriteDigest(c.policyDigest);
    w.WriteLE(c.policyVersion, 8);
    w.WriteBytes(c.intent);
    w.WriteLE(c.intentGeneration, 8);
    w.WriteDigest(c.intentDigest);
    w.WriteBytes(c.observation);
    w.WriteLE(c.observationGeneration, 8);
    w.WriteBytes(c.reporter);
    w.WriteDigest(c.observationDigest);
    w.WriteLE(VerdictCode(c.verdict), 1);
    w.WriteLE(EvidenceCode(c.evidence), 1);
    w.WriteLE(if c.truncated then 1 else 0, 1);
    w.WriteLE(c.scopeReason, 2);
    EncodeSteps(w, c.explanation);
    ghost var before := w.State();
    w.WriteLE(|c.decisions| % TWO32, 4);
    CountWraps(before, |c.decisions|);
  }

  /** Sealing a plan. */
  method Seal(plan: Plan) returns (id: Digest)
    ensures id == PlanId(plan)
  {
    hide SealHead, SealDecision, ContentOf, Push;
    var c := ContentOf(plan);
    var w := new CanonicalWriter();
    EncodeHead(w, c);
    ghost var after := SealDecisions(w.State(), c.decisions);
    var n := 0;
    while n < |c.decisions|
      invariant 0 <= n <= |c.decisions| && w.Valid()
      invariant SealDecisions(w.State(), c.decisions[n..]) == after
    {
      assert c.decisions[n..][1..] == c.decisions[n + 1..];
      EncodeDecision(w, c.decisions[n]);
      n := n + 1;
    }
    id := Sha256Of(w.buffer);
  }
}
