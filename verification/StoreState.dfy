/** The durable state and what each journal record does to it. */
module StoreState {
  import opened Bytes
  import opened Ordering
  import opened Model
  import opened Canonical
  import opened DocumentCodec
  import opened LineageCodec
  import opened JournalFormat

  /** The part of the durable state that records act on. */
  datatype Tables = Tables(
    lastEpoch: nat,
    nextAttempt: nat,
    policy: Option<Policy>,
    intents: map<Id, Intent>,
    generations: map<Id, seq<nat>>,
    observations: map<Id, seq<Observation>>,
    attempts: map<nat, Attempt>,
    outcomes: seq<Outcome>,
    fences: map<Id, Fence>)

  const EMPTY: Tables := Tables(0, 1, None, map[], map[], map[], map[], [], map[])

  // ---------------------------------------------------------------- records

  /** A journal record, decoded. */
  datatype Entry =
    | StoreHeaderEntry
    | PolicyPut(policy: Policy)
    | IntentCommit(intent: Intent)
    | ObservationCommit(observation: Observation)
    | AttemptIssued(issued: Attempt)
    | AttemptMoved(moved: Attempt)
    | OutcomeCommit(outcome: Outcome)
    | FencePut(fence: Fence)
    | FenceClear(fenceId: Id)
    | EpochAdvance(epoch: nat)
    | LineageTrimEntry

  function KindOf(e: Entry): nat {
    match e
    case StoreHeaderEntry => 1
    case PolicyPut(_) => 2
    case IntentCommit(_) => 3
    case ObservationCommit(_) => 4
    case AttemptIssued(_) => 5
    case AttemptMoved(_) => 6
    case OutcomeCommit(_) => 7
    case FencePut(_) => 8
    case FenceClear(_) => 9
    case EpochAdvance(_) => 10
    case LineageTrimEntry => 11
  }

  function PayloadOf(e: Entry): seq<byte> {
    match e
    case StoreHeaderEntry => []
    case PolicyPut(p) => PutPolicy(p, [])
    case IntentCommit(d) => PutIntent(d, [])
    case ObservationCommit(d) => PutObservation(d, [])
    case AttemptIssued(a) => PutAttempt(a, [])
    case AttemptMoved(a) => PutAttempt(a, [])
    case OutcomeCommit(o) => PutOutcome(o, [])
    case FencePut(f) => PutFence(f, [])
    case FenceClear(id) => PutBytes(id, [])
    case EpochAdvance(e) => PutU64(e, [])
    case LineageTrimEntry => []
  }

  /** A record as it is handed to the journal. */
  function RawOf(e: Entry): Raw {
    Raw(KindOf(e), PayloadOf(e))
  }

  /** The validation a payload passes through before it changes anything. */
  function DecodeEntry(limits: Limits, kind: nat, payload: seq<byte>): Option<Entry> {
    if kind == 1 then Some(StoreHeaderEntry)
    else if kind == 2 then
      match Exactly(ReadPolicy(limits, payload)) case Some(p) => Some(PolicyPut(p)) case None => None
    else if kind == 3 then
      match Exactly(ReadIntent(limits, payload)) case Some(d) => Some(IntentCommit(d)) case None => None
    else if kind == 4 then
      match Exactly(ReadObservation(limits, payload)) case Some(d) => Some(ObservationCommit(d)) case None => None
    else if kind == 5 then
      match Exactly(ReadAttempt(limits, payload)) case Some(a) => Some(AttemptIssued(a)) case None => None
    else if kind == 6 then
      match Exactly(ReadAttempt(limits, payload)) case Some(a) => Some(AttemptMoved(a)) case None => None
    else if kind == 7 then
      match Exactly(ReadOutcome(payload)) case Some(o) => Some(OutcomeCommit(o)) case None => None
    else if kind == 8 then
      match Exactly(ReadFence(payload)) case Some(f) => Some(FencePut(f)) case None => None
    else if kind == 9 then
      match Exactly(ReadBytes(payload)) case Some(id) => if ValidIdText(id) then Some(FenceClear(id))
                                        else None case None => None
    else if kind == 10 then
      match Exactly(ReadU64(payload)) case Some(e) => Some(EpochAdvance(e)) case None => None
    else if kind == 11 then Some(LineageTrimEntry)
    else None
  }

  predicate ValidEntry(limits: Limits, e: Entry) {
    match e
    case StoreHeaderEntry => true
    case PolicyPut(p) => ValidPolicy(limits, p)
    case IntentCommit(d) => ValidIntent(limits, d)
    case ObservationCommit(d) => ValidObservation(limits, d)
    case AttemptIssued(a) => ValidAttempt(limits, a)
    case AttemptMoved(a) => ValidAttempt(limits, a)
    case OutcomeCommit(o) => ValidOutcome(o)
    case FencePut(f) => ValidFence(f)
    case FenceClear(id) => ValidIdText(id)
    case EpochAdvance(e) => InU64(e)
    case LineageTrimEntry => true
  }

  lemma DecodedEntryValid(limits: Limits, kind: nat, payload: seq<byte>)
    ensures DecodeEntry(limits, kind, payload).Some? ==> ValidEntry(limits, DecodeEntry(limits, kind, payload).value)
  {
    hide ReadPolicy, ReadIntent, ReadObservation, ReadAttempt, ReadOutcome, ReadFence, ReadBytes, ReadU64, ValidPolicy,
         ValidIntent, ValidObservation, ValidAttempt, ValidOutcome, ValidFence, ValidIdText;
    ReadObservationValid(limits, payload);
    ReadAttemptValid(limits, payload);
    ReadOutcomeValid(payload);
    ReadFenceValid(payload);
    ReadU64InRange(payload);
  }

  /** What a writer encodes decodes to what was written. */
  lemma DecodeOfPayload(limits: Limits, e: Entry)
    requires ValidEntry(limits, e) && Fits(PayloadOf(e))
    ensures DecodeEntry(limits, KindOf(e), PayloadOf(e)) == Some(e)
  {
    hide ReadPolicy, ReadIntent, ReadObservation, ReadAttempt, ReadOutcome, ReadFence, ReadBytes, ReadU64, ValidPolicy,
         ValidIntent, ValidObservation, ValidAttempt, ValidOutcome, ValidIdText, PutPolicy, PutIntent, PutObservation,
         PutAttempt, PutOutcome, PutFence, PutBytes, PutU64, OptionalId;
    match e {
      case StoreHeaderEntry =>
      case PolicyPut(p) => ReadPutPolicy(limits, p, []);
      case IntentCommit(d) => ReadPutIntent(limits, d, []);
      case ObservationCommit(d) => ReadPutObservation(limits, d, []);
      case AttemptIssued(a) => ReadPutAttempt(limits, a, []);
      case AttemptMoved(a) => ReadPutAttempt(limits, a, []);
      case OutcomeCommit(o) => ReadPutOutcome(o, []);
      case FencePut(f) => ReadPutFence(f, []);
      case FenceClear(id) => IdFits(id); ReadPutBytes(id, []);
      case EpochAdvance(n) => ReadPutU64(n, []);
      case LineageTrimEntry =>
    }
  }

  // ---------------------------------------------------------------- retention

  /** The newest `bound` elements. */
  function KeepLast<T>(s: seq<T>, bound: nat): (r: seq<T>)
    ensures |r| == (if |s| < bound then |s| else bound) && (|s| <= bound ==> r == s)
  {
    if |s| > bound then s[|s| - bound..] else s
  }

  function TerminalIds(attempts: map<nat, Attempt>): set<nat> {
    set id | id in attempts && IsTerminal(attempts[id].state)
  }

  predicate IsSmallest(m: nat, s: set<nat>) {
    m in s && forall x :: x in s ==> m <= x
  }

  lemma {:induction false} SmallestExists(s: set<nat>)
    requires s != {}
    ensures exists m :: IsSmallest(m, s)
    decreases |s|
  {
    var x :| x in s;
    if s != {x} {
      var rest := s - {x};
      assert |rest| < |s|;
      SmallestExists(rest);
      var m :| IsSmallest(m, rest);
      assert forall y :: y in s ==> y == x || y in rest;
      assert IsSmallest(if m <= x then m else x, s);
    } else {
      assert IsSmallest(x, s);
    }
  }

  function Smallest(s: set<nat>): (m: nat)
    requires s != {}
    ensures IsSmallest(m, s)
  {
    SmallestExists(s);
    var m :| IsSmallest(m, s); m
  }

  predicate AscendingIds(s: seq<nat>) {
    forall i, j :: 0 <= i < j < |s| ==> s[i] < s[j]
  }

  /** Attempt identities in iteration order. */
  function SortedIds(ids: set<nat>): (s: seq<nat>)
    ensures AscendingIds(s) && (forall x :: x in s <==> x in ids) && |s| == |ids|
    decreases |ids|
  {
    if ids == {} then [] else
    var m := Smallest(ids);
    assert |ids - {m}| == |ids| - 1;
    [m] + SortedIds(ids - {m})
  }

  /** Evict terminal attempts, oldest identity first, until the table is within its bound or only live attempts
      remain. */
  function TrimmedAttempts(limits: Limits, attempts: map<nat, Attempt>): (r: map<nat, Attempt>)
    ensures forall id :: id in r ==> id in attempts && r[id] == attempts[id]
    ensures forall id :: id in attempts && !IsTerminal(attempts[id].state) ==> id in r
    ensures |r| <= limits.maxAttempts || TerminalIds(r) == {}
    decreases |attempts|
  {
    if |attempts| <= limits.maxAttempts || TerminalIds(attempts) == {} then attempts
    else
      var victim := Smallest(TerminalIds(attempts));
      assert victim in attempts.Keys && (attempts - {victim}).Keys == attempts.Keys - {victim};
      TrimmedAttempts(limits, attempts - {victim})
  }

  // ---------------------------------------------------------------- applying a record

  function AfterAttempt(limits: Limits, t: Tables, a: Attempt): Tables {
    var advanced := if a.id >= t.nextAttempt then (a.id + 1) % TWO64 else t.nextAttempt;
    t.(nextAttempt := if advanced == 0 then 1 else advanced,
       attempts := TrimmedAttempts(limits, t.attempts[a.id := a]))
  }

  function GetOr<V>(m: map<Id, V>, k: Id, default: V): V {
    if k in m then m[k] else default
  }

  function Apply(limits: Limits, t: Tables, e: Entry): Tables {
    match e
    case StoreHeaderEntry => t
    case PolicyPut(p) => t.(policy := Some(p))
    case IntentCommit(d) =>
      var generations := GetOr(t.generations, d.scope, []) + [d.generation];
      t.(generations := t.generations[d.scope := KeepLast(generations, limits.maxObservationsPerScope)],
         intents := t.intents[d.scope := d])
    case ObservationCommit(d) =>
      var stream := GetOr(t.observations, d.scope, []) + [d];
      t.(observations := t.observations[d.scope := KeepLast(stream, limits.maxObservationsPerScope)])
    case AttemptIssued(a) => AfterAttempt(limits, t, a)
    case AttemptMoved(a) => AfterAttempt(limits, t, a)
    case OutcomeCommit(o) => t.(outcomes := KeepLast(t.outcomes + [o], limits.maxOutcomes))
    case FencePut(f) => t.(fences := t.fences[f.id := f])
    case FenceClear(id) => t.(fences := t.fences - {id})
    case EpochAdvance(e) => t.(lastEpoch := if e > t.lastEpoch then e else t.lastEpoch)
    case LineageTrimEntry => t
  }

  // ---------------------------------------------------------------- what every reachable state satisfies

  ghost predicate ValidIntents(limits: Limits, m: map<Id, Intent>) {
    forall k :: k in m ==> ValidIntent(limits, m[k]) && m[k].scope == k
  }

  ghost predicate ValidGenerations(limits: Limits, gs: seq<nat>) {
    |gs| <= limits.maxObservationsPerScope && forall i :: 0 <= i < |gs| ==> InU64(gs[i])
  }

  ghost predicate ValidGenerationTable(limits: Limits, m: map<Id, seq<nat>>) {
    forall k :: k in m ==> ValidIdText(k) && ValidGenerations(limits, m[k])
  }

  ghost predicate ValidStream(limits: Limits, scope: Id, stream: seq<Observation>) {
    && |stream| <= limits.maxObservationsPerScope
    && forall i :: 0 <= i < |stream| ==> ValidObservation(limits, stream[i]) && stream[i].scope == scope
  }

  ghost predicate ValidObservations(limits: Limits, m: map<Id, seq<Observation>>) {
    forall k :: k in m ==> ValidIdText(k) && ValidStream(limits, k, m[k])
  }

  ghost predicate ValidAttempts(limits: Limits, m: map<nat, Attempt>) {
    forall k :: k in m ==> ValidAttempt(limits, m[k]) && m[k].id == k
  }

  ghost predicate ValidOutcomes(limits: Limits, os: seq<Outcome>) {
    |os| <= limits.maxOutcomes && forall i :: 0 <= i < |os| ==> ValidOutcome(os[i])
  }

  ghost predicate ValidFences(m: map<Id, Fence>) {
    forall k :: k in m ==> ValidFence(m[k]) && m[k].id == k
  }

  /** Everything a state holds came through a decoder, and sits under its own key. */
  ghost predicate ValidTables(limits: Limits, t: Tables) {
    && InU64(t.lastEpoch) && 0 < t.nextAttempt && InU64(t.nextAttempt)
    && (t.policy.Some? ==> ValidPolicy(limits, t.policy.value))
    && ValidIntents(limits, t.intents) && ValidGenerationTable(limits, t.generations)
    && ValidObservations(limits, t.observations) && ValidAttempts(limits, t.attempts)
    && ValidOutcomes(limits, t.outcomes) && ValidFences(t.fences)
  }

  lemma EmptyTablesValid(limits: Limits)
    ensures ValidTables(limits, EMPTY)
  {
  }

  lemma IntentKeepsValid(limits: Limits, t: Tables, d: Intent)
    requires ValidIntents(limits, t.intents) && ValidGenerationTable(limits, t.generations) && ValidIntent(limits, d)
    ensures var t' := Apply(limits, t, IntentCommit(d));
            ValidIntents(limits, t'.intents) && ValidGenerationTable(limits, t'.generations)
  {
    hide ValidIdText, ValidSubjects, IntentDigest;
    var t' := Apply(limits, t, IntentCommit(d));
    assert ValidGenerations(limits, t'.generations[d.scope]);
  }

  lemma ObservationKeepsValid(limits: Limits, t: Tables, d: Observation)
    requires ValidObservations(limits, t.observations) && ValidObservation(limits, d)
    ensures ValidObservations(limits, Apply(limits, t, ObservationCommit(d)).observations)
  {
    hide ValidIdText, ValidSubjects, ObservationDigest;
    var t' := Apply(limits, t, ObservationCommit(d));
    assert ValidStream(limits, d.scope, t'.observations[d.scope]);
  }

  lemma AttemptKeepsValid(limits: Limits, t: Tables, a: Attempt)
    requires ValidAttempts(limits, t.attempts) && ValidAttempt(limits, a) && 0 < t.nextAttempt && InU64(t.nextAttempt)
    ensures var t' := AfterAttempt(limits, t, a);
            ValidAttempts(limits, t'.attempts) && 0 < t'.nextAttempt && InU64(t'.nextAttempt)
  {
    hide ValidAttempt, TrimmedAttempts;
  }

  lemma OutcomeKeepsValid(limits: Limits, t: Tables, o: Outcome)
    requires ValidOutcomes(limits, t.outcomes) && ValidOutcome(o)
    ensures ValidOutcomes(limits, Apply(limits, t, OutcomeCommit(o)).outcomes)
  {
    hide ValidOutcome;
  }

  lemma ApplyKeepsValid(limits: Limits, t: Tables, e: Entry)
    requires ValidTables(limits, t) && ValidEntry(limits, e)
    ensures ValidTables(limits, Apply(limits, t, e))
  {
    hide ValidPolicy, ValidIntents, ValidGenerationTable, ValidObservations, ValidAttempts, ValidOutcomes, ValidIntent,
         ValidObservation, ValidAttempt, ValidOutcome, ValidFence, ValidIdText, KeepLast, TrimmedAttempts;
    match e {
      case IntentCommit(d) => IntentKeepsValid(limits, t, d);
      case ObservationCommit(d) => ObservationKeepsValid(limits, t, d);
      case AttemptIssued(a) => AttemptKeepsValid(limits, t, a);
      case AttemptMoved(a) => AttemptKeepsValid(limits, t, a);
      case OutcomeCommit(o) => OutcomeKeepsValid(limits, t, o);
      case _ =>
    }
  }

  // ---------------------------------------------------------------- folding a log

  /** A record as the journal holds it. */
  datatype Raw = Raw(kind: nat, payload: seq<byte>)

  /** What the running process makes of a record it has just made durable: a payload
      that does not decode is reported and changes nothing. */
  function ApplyRaw(limits: Limits, t: Tables, r: Raw): Tables {
    var e := DecodeEntry(limits, r.kind, r.payload);
    if e.Some? then Apply(limits, t, e.value) else t
  }

  function Fold(limits: Limits, t: Tables, log: seq<Raw>): Tables
    decreases |log|
  {
    if log == [] then t else Fold(limits, ApplyRaw(limits, t, log[0]), log[1..])
  }

  predicate Decodes(limits: Limits, r: Raw) {
    DecodeEntry(limits, r.kind, r.payload).Some?
  }

  lemma {:induction false} FoldAppend(limits: Limits, t: Tables, a: seq<Raw>, b: seq<Raw>)
    ensures Fold(limits, t, a + b) == Fold(limits, Fold(limits, t, a), b)
    decreases |a|
  {
    hide ApplyRaw;
    if a == [] {
      assert a + b == b;
    } else {
      assert (a + b)[1..] == a[1..] + b;
      FoldAppend(limits, ApplyRaw(limits, t, a[0]), a[1..], b);
    }
  }

  lemma {:induction false} FoldValid(limits: Limits, t: Tables, log: seq<Raw>)
    requires ValidTables(limits, t)
    ensures ValidTables(limits, Fold(limits, t, log))
    decreases |log|
  {
    hide DecodeEntry, Apply, ValidTables, ValidEntry;
    if log != [] {
      DecodedEntryValid(limits, log[0].kind, log[0].payload);
      if DecodeEntry(limits, log[0].kind, log[0].payload).Some? {
        ApplyKeepsValid(limits, t, DecodeEntry(limits, log[0].kind, log[0].payload).value);
      }
      FoldValid(limits, ApplyRaw(limits, t, log[0]), log[1..]);
    }
  }
}
