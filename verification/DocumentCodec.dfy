/** Attribute values, subject states, intents, observations, submissions and
    policies as canonical bytes, and back. */
module DocumentCodec {
  import opened Bytes
  import opened Ordering
  import opened Model
  import opened Canonical

  const SCHEMA_VERSION: nat := 1

  /** `Decode…Exact`: the value must end where the bytes end. */
  function Exactly<T>(r: Read<T>): Option<T> {
    if r.Got? && r.rest == [] then Some(r.value) else None
  }

  predicate Fits(bytes: seq<byte>) {
    |bytes| <= MAX_CANONICAL_BYTES
  }

  /** Valid identity text is short enough for a length prefix. */
  lemma IdFits(s: Id)
    requires ValidIdText(s)
    ensures s != [] && |s| <= MAX_CANONICAL_BYTES
  {
  }

  /** The part of a table under the given keys. */
  ghost function Pick<V>(m: map<Id, V>, keys: seq<Id>): map<Id, V>
    requires forall x :: x in keys ==> x in m
  {
    map x | x in keys :: m[x]
  }

  lemma PickAll<V>(m: map<Id, V>)
    ensures var keys := SortedKeys(m.Keys);
            (forall x :: x in keys <==> x in m) && |keys| == |m| && Pick(m, keys) == m
  {
    hide SortedKeys, Ascending, Less;
    var keys := SortedKeys(m.Keys);
    assert forall x :: x in keys <==> x in Elements(keys);
    assert Pick(m, keys).Keys == m.Keys;
  }

  lemma PickNone<V>(acc: map<Id, V>, m: map<Id, V>, keys: seq<Id>)
    requires keys == []
    ensures acc + Pick(m, keys) == acc
  {
  }

  lemma PickHead<V>(acc: map<Id, V>, m: map<Id, V>, keys: seq<Id>)
    requires keys != [] && (forall x :: x in keys ==> x in m)
    ensures acc[keys[0] := m[keys[0]]] + Pick(m, keys[1..]) == acc + Pick(m, keys)
  {
    assert forall x :: x in keys <==> x == keys[0] || x in keys[1..];
  }

  // ---------------------------------------------------------------- attribute values

  function PutValue(v: AttributeValue, k: seq<byte>): seq<byte> {
    PutU8(KindCode(v),
          match v
          case Boolean(b) => PutBool(b, k)
          case Integer(i) => PutI64(i, k)
          case Unsigned(u) => PutU64(u, k)
          case Text(t) => PutBytes(t, k)
          case Token(t) => PutBytes(t, k)
          case Absent => k
          case InvalidValue => k)
  }

  predicate ValidValue(v: AttributeValue) {
    IsValidValue(v) && ValueInRange(v)
  }

  lemma FromLEBound(s: seq<byte>, width: nat)
    requires |s| == width
    ensures FromLE(s) < Pow256(width)
  {
    LEOfFromLE(s);
  }

  function ReadValue(s: seq<byte>): (r: Read<AttributeValue>)
    ensures r.Got? ==> ValidValue(r.value)
  {
    var (kind, s1) :- ReadU8(s);
    if kind == 1 then Got(Absent, s1)
    else if kind == 2 then
      var (b, s2) :- ReadBool(s1);
      Got(Boolean(b), s2)
    else if kind == 3 then
      var (i, s2) :- ReadI64(s1);
      Got(Integer(i), s2)
    else if kind == 4 then
      var (u, s2) :- ReadU64(s1);
      FromLEBound(s1[..8], 8);
      Pow256Values();
      Got(Unsigned(u), s2)
    else if kind == 5 || kind == 6 then
      var (t, s2) :- ReadBytes(s1);
      if |t| > MAX_ATTRIBUTE_TEXT then Bad
      else if kind == 5 then Got(Text(t), s2) else Got(Token(t), s2)
    else Bad
  }

  lemma ReadPutValue(v: AttributeValue, k: seq<byte>)
    requires ValidValue(v)
    ensures ReadValue(PutValue(v, k)) == Got(v, k)
  {
    match v {
      case Boolean(b) => ReadPutU8(2, PutBool(b, k)); ReadPutBool(b, k);
      case Integer(i) => ReadPutU8(3, PutI64(i, k)); ReadPutI64(i, k);
      case Unsigned(u) => ReadPutU8(4, PutU64(u, k)); ReadPutU64(u, k);
      case Text(t) => ReadPutU8(5, PutBytes(t, k)); ReadPutBytes(t, k);
      case Token(t) => ReadPutU8(6, PutBytes(t, k)); ReadPutBytes(t, k);
      case Absent => ReadPutU8(1, k);
    }
  }

  // ---------------------------------------------------------------- subject states

  function PutAttributeEntries(keys: seq<Id>, m: Attributes, k: seq<byte>): seq<byte>
    requires forall x :: x in keys ==> x in m
  {
    if keys == [] then k
    else PutBytes(keys[0], PutValue(m[keys[0]], PutAttributeEntries(keys[1..], m, k)))
  }

  function PutAttributes(m: Attributes, k: seq<byte>): seq<byte> {
    var keys := SortedKeys(m.Keys);
    assert forall x :: x in keys ==> x in Elements(keys);
    PutU32(|m|, PutAttributeEntries(keys, m, k))
  }

  predicate ValidEntries(m: Attributes) {
    forall x :: x in m ==> ValidIdText(x) && ValidValue(m[x])
  }

  predicate ValidAttributes(limits: Limits, m: Attributes) {
    |m| <= limits.maxAttributesPerSubject && ValidEntries(m)
  }

  function ReadAttributeEntries(n: nat, s: seq<byte>, acc: Attributes): (r: Read<Attributes>)
    requires ValidEntries(acc)
    ensures r.Got? ==> ValidEntries(r.value) && |r.value| == |acc| + n
  {
    if n == 0 then Got(acc, s) else
    var (key, s1) :- ReadBytes(s);
    if !ValidIdText(key) then Bad else
    var (v, s2) :- ReadValue(s1);
    if key in acc then Bad else
    ReadAttributeEntries(n - 1, s2, acc[key := v])
  }

  function ReadAttributes(limits: Limits, s: seq<byte>): (r: Read<Attributes>)
    ensures r.Got? ==> ValidAttributes(limits, r.value)
  {
    var (n, s1) :- ReadU32(s);
    if n > limits.maxAttributesPerSubject then Bad else
    ReadAttributeEntries(n, s1, map[])
  }

  /** Reading the entries back adds exactly them, whatever was read before. */
  lemma {:induction false} ReadPutAttributeEntries(keys: seq<Id>, m: Attributes, k: seq<byte>, acc: Attributes)
    requires Ascending(keys) && (forall x :: x in keys ==> x in m && x !in acc)
    requires ValidEntries(m) && ValidEntries(acc)
    ensures ReadAttributeEntries(|keys|, PutAttributeEntries(keys, m, k), acc)
         == Got(acc + Pick(m, keys), k)
    decreases |keys|
  {
    hide PutBytes, ReadBytes, PutValue, ReadValue, ValidIdText, ValidValue, Less, Pick;
    if keys == [] {
      PickNone(acc, m, keys);
    } else {
      var key := keys[0];
      var k1 := PutAttributeEntries(keys[1..], m, k);
      IdFits(key);
      ReadPutBytes(key, PutValue(m[key], k1));
      ReadPutValue(m[key], k1);
      AscendingHead(keys);
      assert ReadAttributeEntries(|keys|, PutAttributeEntries(keys, m, k), acc)
          == ReadAttributeEntries(|keys[1..]|, k1, acc[key := m[key]]);
      ReadPutAttributeEntries(keys[1..], m, k, acc[key := m[key]]);
      PickHead(acc, m, keys);
    }
  }

  lemma {:induction false} AttributeEntriesLength(keys: seq<Id>, m: Attributes, k: seq<byte>)
    requires forall x :: x in keys ==> x in m
    ensures |PutAttributeEntries(keys, m, k)| >= |keys| + |k|
  {
    hide PutBytes, PutValue;
    if keys != [] {
      var rest := PutAttributeEntries(keys[1..], m, k);
      PutBytesGrows(keys[0], PutValue(m[keys[0]], rest));
      PutValueGrows(m[keys[0]], rest);
      AttributeEntriesLength(keys[1..], m, k);
    }
  }

  lemma PutValueGrows(v: AttributeValue, k: seq<byte>)
    ensures |PutValue(v, k)| > |k|
  {
    hide LE;
  }

  lemma AttributeCountFits(m: Attributes, k: seq<byte>)
    ensures |PutAttributes(m, k)| >= |m| + |k|
    ensures Fits(PutAttributes(m, k)) ==> |m| < TWO32
  {
    hide PutAttributeEntries, LE, SortedKeys, Less;
    var keys := SortedKeys(m.Keys);
    assert forall x :: x in keys ==> x in Elements(keys);
    AttributeEntriesLength(keys, m, k);
  }

  lemma ReadPutAttributes(limits: Limits, m: Attributes, k: seq<byte>)
    requires ValidAttributes(limits, m) && Fits(PutAttributes(m, k))
    ensures ReadAttributes(limits, PutAttributes(m, k)) == Got(m, k)
  {
    hide PutAttributeEntries, ReadAttributeEntries, PutU32, ReadU32, ValidIdText, ValidValue, SortedKeys, Less, Fits;
    AttributeCountFits(m, k);
    var keys := SortedKeys(m.Keys);
    assert forall x :: x in keys <==> x in Elements(keys);
    ReadPutU32(|m|, PutAttributeEntries(keys, m, k));
    ReadPutAttributeEntries(keys, m, k, map[]);
    PickAll(m);
    assert map[] + Pick(m, keys) == m;
  }

  // ---------------------------------------------------------------- subject tables

  function PutSubjectEntry(key: Id, subject: Subject, k: seq<byte>): seq<byte> {
    PutBytes(key, PutBool(subject.completeAttributes, PutAttributes(subject.attributes, k)))
  }

  function PutSubjectEntries(keys: seq<Id>, m: map<Id, Subject>, k: seq<byte>): seq<byte>
    requires forall x :: x in keys ==> x in m
  {
    if keys == [] then k else PutSubjectEntry(keys[0], m[keys[0]], PutSubjectEntries(keys[1..], m, k))
  }

  function PutSubjects(m: map<Id, Subject>, k: seq<byte>): seq<byte> {
    var keys := SortedKeys(m.Keys);
    assert forall x :: x in keys ==> x in Elements(keys);
    PutU32(|m|, PutSubjectEntries(keys, m, k))
  }

  predicate ValidSubjects(limits: Limits, m: map<Id, Subject>) {
    forall x :: x in m ==> ValidIdText(x) && ValidAttributes(limits, m[x].attributes)
  }

  function ReadSubjectEntries(limits: Limits, n: nat, s: seq<byte>, acc: map<Id, Subject>): (r: Read<map<Id, Subject>>)
    requires ValidSubjects(limits, acc)
    ensures r.Got? ==> ValidSubjects(limits, r.value) && |r.value| == |acc| + n
  {
    if n == 0 then Got(acc, s) else
    var (key, s1) :- ReadBytes(s);
    var (complete, s2) :- ReadBool(s1);
    if !ValidIdText(key) then Bad else
    var (attributes, s3) :- ReadAttributes(limits, s2);
    if key in acc then Bad else
    ReadSubjectEntries(limits, n - 1, s3, acc[key := Subject(complete, attributes)])
  }

  /** The count comes with the fixed fields, the entries follow. */
  function ReadSubjects(limits: Limits, n: nat, s: seq<byte>): (r: Read<map<Id, Subject>>)
    ensures r.Got? ==> ValidSubjects(limits, r.value) && |r.value| == n
  {
    ReadSubjectEntries(limits, n, s, map[])
  }

  lemma {:induction false} SubjectEntriesLength(keys: seq<Id>, m: map<Id, Subject>, k: seq<byte>)
    requires forall x :: x in keys ==> x in m
    ensures |PutSubjectEntries(keys, m, k)| >= |keys| + |k|
  {
    hide PutAttributes, LE;
    if keys != [] {
      SubjectEntriesLength(keys[1..], m, k);
      AttributeCountFits(m[keys[0]].attributes, PutSubjectEntries(keys[1..], m, k));
    }
  }

  /** The parts of an entry fit when the entry does. */
  lemma SubjectEntryFits(keys: seq<Id>, m: map<Id, Subject>, k: seq<byte>)
    requires keys != [] && (forall x :: x in keys ==> x in m)
    requires Fits(PutSubjectEntries(keys, m, k))
    ensures Fits(PutSubjectEntries(keys[1..], m, k))
    ensures Fits(PutAttributes(m[keys[0]].attributes, PutSubjectEntries(keys[1..], m, k)))
  {
    hide PutAttributes, LE;
    AttributeCountFits(m[keys[0]].attributes, PutSubjectEntries(keys[1..], m, k));
  }

  /** One entry is read back and the entries after it are left to be read. */
  lemma ReadPutSubjectEntry(limits: Limits, n: nat, key: Id, subject: Subject, k: seq<byte>, acc: map<Id, Subject>)
    requires ValidIdText(key) && ValidAttributes(limits, subject.attributes) && ValidSubjects(limits, acc)
    requires key !in acc && Fits(PutAttributes(subject.attributes, k))
    ensures ValidSubjects(limits, acc[key := subject])
    ensures ReadSubjectEntries(limits, n + 1, PutSubjectEntry(key, subject, k), acc)
         == ReadSubjectEntries(limits, n, k, acc[key := subject])
  {
    hide PutBytes, ReadBytes, PutBool, ReadBool, PutAttributes, ReadAttributes, ValidIdText, ValidAttributes, Fits;
    var k1 := PutAttributes(subject.attributes, k);
    IdFits(key);
    ReadPutBytes(key, PutBool(subject.completeAttributes, k1));
    ReadPutBool(subject.completeAttributes, k1);
    ReadPutAttributes(limits, subject.attributes, k);
  }

  lemma {:induction false} ReadPutSubjectEntries(limits: Limits, keys: seq<Id>, m: map<Id, Subject>, k: seq<byte>,
                                                 acc: map<Id, Subject>)
    requires Ascending(keys) && (forall x :: x in keys ==> x in m && x !in acc)
    requires ValidSubjects(limits, m) && ValidSubjects(limits, acc)
    requires Fits(PutSubjectEntries(keys, m, k))
    ensures ReadSubjectEntries(limits, |keys|, PutSubjectEntries(keys, m, k), acc)
         == Got(acc + Pick(m, keys), k)
    decreases |keys|
  {
    hide PutSubjectEntry, ReadSubjectEntries, ReadBytes, ReadBool, ReadAttributes, ValidIdText, ValidAttributes, Less,
         Fits, Pick;
    if keys == [] {
      PickNone(acc, m, keys);
      ReadNoEntries(limits, k, acc);
    } else {
      var key, subject := keys[0], m[keys[0]];
      SubjectEntryFits(keys, m, k);
      AscendingHead(keys);
      ReadPutSubjectEntry(limits, |keys| - 1, key, subject, PutSubjectEntries(keys[1..], m, k), acc);
      ReadPutSubjectEntries(limits, keys[1..], m, k, acc[key := subject]);
      PickHead(acc, m, keys);
    }
  }

  lemma ReadNoEntries(limits: Limits, s: seq<byte>, acc: map<Id, Subject>)
    requires ValidSubjects(limits, acc)
    ensures ReadSubjectEntries(limits, 0, s, acc) == Got(acc, s)
  {
    hide ReadBytes, ReadBool, ReadAttributes, ValidSubjects;
  }

  lemma SubjectCountFits(m: map<Id, Subject>, k: seq<byte>)
    ensures |PutSubjects(m, k)| >= |m| + |k|
    ensures Fits(PutSubjects(m, k)) ==> |m| < TWO32
    ensures var keys := SortedKeys(m.Keys);
            (forall x :: x in keys ==> x in m) &&
            (Fits(PutSubjects(m, k)) ==> Fits(PutSubjectEntries(keys, m, k)))
  {
    hide PutSubjectEntries, LE, SortedKeys, Less;
    var keys := SortedKeys(m.Keys);
    assert forall x :: x in keys ==> x in Elements(keys);
    SubjectEntriesLength(keys, m, k);
  }

  lemma ReadPutSubjects(limits: Limits, m: map<Id, Subject>, k: seq<byte>)
    requires ValidSubjects(limits, m) && Fits(PutSubjects(m, k))
    ensures ReadU32(PutSubjects(m, k)).Got?
    ensures var (n, r) := ReadU32(PutSubjects(m, k)).Extract();
            n == |m| && ReadSubjects(limits, n, r) == Got(m, k)
  {
    hide PutSubjectEntries, ReadSubjectEntries, PutU32, ReadU32, ValidIdText, ValidAttributes, SortedKeys, Less, Fits;
    SubjectCountFits(m, k);
    var keys := SortedKeys(m.Keys);
    assert forall x :: x in keys <==> x in Elements(keys);
    ReadPutU32(|m|, PutSubjectEntries(keys, m, k));
    ReadPutSubjectEntries(limits, keys, m, k, map[]);
    PickAll(m);
    assert map[] + Pick(m, keys) == m;
  }

  // ---------------------------------------------------------------- intents

  function PutIntentFields(d: Intent, k: seq<byte>): seq<byte> {
    PutBytes(d.intent, PutBytes(d.scope, PutBytes(d.definition,
      PutU64(d.generation, PutU64(d.policyVersion, PutU8(EvidenceCode(d.evidence),
        PutBool(d.complete, PutSubjects(d.subjects, k))))))))
  }

  function IntentDigestInput(d: Intent): seq<byte> {
    PutU16(SCHEMA_VERSION, PutIntentFields(d, []))
  }

  function IntentDigest(d: Intent): Digest {
    Sha256Of(IntentDigestInput(d))
  }

  function PutIntent(d: Intent, k: seq<byte>): seq<byte> {
    PutIntentFields(d, PutDigest(d.digest, k))
  }

  /** An intent as the decoder accepts it. */
  predicate ValidIntent(limits: Limits, d: Intent) {
    && ValidIdText(d.intent) && ValidIdText(d.scope) && ValidIdText(d.definition)
    && d.generation < TWO64 && d.policyVersion < TWO64
    && |d.subjects| <= limits.maxSubjectsPerDocument
    && ValidSubjects(limits, d.subjects)
    && d.digest == IntentDigest(d)
  }

  lemma ReadU64InRange(s: seq<byte>)
    ensures ReadU64(s).Got? ==> ReadU64(s).value < TWO64
  {
    if |s| >= 8 {
      FromLEBound(s[..8], 8);
      Pow256Values();
    }
  }

  lemma ReadI64InRange(s: seq<byte>)
    ensures ReadI64(s).Got? ==> 0 - TWO63 <= ReadI64(s).value < TWO63
  {
    hide ReadU64;
  }

  /** What follows the three names of an intent. */
  function ReadIntentBody(limits: Limits, intent: Id, scope: Id, definition: Id, s: seq<byte>): (r: Read<Intent>)
    ensures r.Got? ==> ValidIntent(limits, r.value)
  {
    var (generation, s1) :- ReadU64(s);
    var (policyVersion, s2) :- ReadU64(s1);
    var (evidence, s3) :- ReadU8(s2);
    var (complete, s4) :- ReadBool(s3);
    var (count, s5) :- ReadU32(s4);
    if count > limits.maxSubjectsPerDocument || EvidenceOf(evidence).None? then Bad else
    if !ValidIdText(intent) || !ValidIdText(scope) || !ValidIdText(definition) then Bad else
    var (subjects, s6) :- ReadSubjects(limits, count, s5);
    var (digest, s7) :- ReadDigest(s6);
    ReadU64InRange(s);
    ReadU64InRange(s1);
    var d := Intent(intent, scope, definition, generation, policyVersion, EvidenceOf(evidence).value, complete,
                    subjects, digest);
    if digest != IntentDigest(d) then Bad else Got(d, s7)
  }

  function ReadIntent(limits: Limits, s: seq<byte>): (r: Read<Intent>)
    ensures r.Got? ==> ValidIntent(limits, r.value)
  {
    var (intent, s1) :- ReadBytes(s);
    var (scope, s2) :- ReadBytes(s1);
    var (definition, s3) :- ReadBytes(s2);
    ReadIntentBody(limits, intent, scope, definition, s3)
  }

  lemma IntentSubjectsFit(d: Intent, k: seq<byte>)
    requires Fits(PutIntent(d, k))
    ensures Fits(PutSubjects(d.subjects, PutDigest(d.digest, k)))
  {
    hide PutSubjects, LE, FromLE;
  }

  function PutIntentBody(d: Intent, k: seq<byte>): seq<byte> {
    PutU64(d.generation, PutU64(d.policyVersion, PutU8(EvidenceCode(d.evidence),
      PutBool(d.complete, PutSubjects(d.subjects, PutDigest(d.digest, k))))))
  }

  lemma ReadPutIntentBody(limits: Limits, d: Intent, k: seq<byte>)
    requires ValidIntent(limits, d) && Fits(PutSubjects(d.subjects, PutDigest(d.digest, k)))
    ensures ReadIntentBody(limits, d.intent, d.scope, d.definition, PutIntentBody(d, k)) == Got(d, k)
  {
    hide PutU64, ReadU64, PutU8, ReadU8, PutBool, ReadBool, PutDigest, ReadDigest, PutSubjects, ReadU32, ReadSubjects,
         ValidIdText, ValidSubjects, IntentDigest, Fits;
    var k5 := PutDigest(d.digest, k);
    var k4 := PutSubjects(d.subjects, k5);
    var k3 := PutBool(d.complete, k4);
    var k2 := PutU8(EvidenceCode(d.evidence), k3);
    var k1 := PutU64(d.policyVersion, k2);
    ReadPutU64(d.generation, k1);
    ReadPutU64(d.policyVersion, k2);
    ReadPutU8(EvidenceCode(d.evidence), k3);
    ReadPutBool(d.complete, k4);
    ReadPutSubjects(limits, d.subjects, k5);
    ReadPutDigest(d.digest, k);
  }

  lemma ReadPutIntent(limits: Limits, d: Intent, k: seq<byte>)
    requires ValidIntent(limits, d) && Fits(PutIntent(d, k))
    ensures ReadIntent(limits, PutIntent(d, k)) == Got(d, k)
  {
    hide PutBytes, ReadBytes, ReadIntentBody, PutU64, PutU8, PutBool, PutDigest, PutSubjects, ValidIdText,
         ValidSubjects, IntentDigest, Fits;
    IdFits(d.intent);
    IdFits(d.scope);
    IdFits(d.definition);
    IntentSubjectsFit(d, k);
    var k3 := PutIntentBody(d, k);
    var k2 := PutBytes(d.definition, k3);
    ReadPutBytes(d.intent, PutBytes(d.scope, k2));
    ReadPutBytes(d.scope, k2);
    ReadPutBytes(d.definition, k3);
    ReadPutIntentBody(limits, d, k);
  }

  // ---------------------------------------------------------------- observations

  function PutObservationFields(d: Observation, k: seq<byte>): seq<byte> {
    PutBytes(d.observation, PutBytes(d.scope, PutBytes(d.reporter,
      PutU64(d.generation, PutU8(EvidenceCode(d.evidence), PutBool(d.complete, PutBool(d.authoritativeAbsence,
        PutU64(d.receivedEpoch, PutI64(d.receivedMs, PutSubjects(d.subjects, k))))))))))
  }

  function ObservationDigestInput(d: Observation): seq<byte> {
    PutU16(SCHEMA_VERSION, PutObservationFields(d, []))
  }

  function ObservationDigest(d: Observation): Digest {
    Sha256Of(ObservationDigestInput(d))
  }

  function PutObservation(d: Observation, k: seq<byte>): seq<byte> {
    PutObservationFields(d, PutDigest(d.digest, k))
  }

  predicate ValidObservation(limits: Limits, d: Observation) {
    && ValidIdText(d.observation) && ValidIdText(d.scope) && ValidIdText(d.reporter)
    && d.generation < TWO64 && d.receivedEpoch < TWO64 && 0 - TWO63 <= d.receivedMs < TWO63
    && |d.subjects| <= limits.maxSubjectsPerDocument
    && ValidSubjects(limits, d.subjects)
    && d.digest == ObservationDigest(d)
  }

  function ReadObservation(limits: Limits, s: seq<byte>): Read<Observation> {
    var (observation, s1) :- ReadBytes(s);
    var (scope, s2) :- ReadBytes(s1);
    var (reporter, s3) :- ReadBytes(s2);
    var (generation, s4) :- ReadU64(s3);
    var (evidence, s5) :- ReadU8(s4);
    var (complete, s6) :- ReadBool(s5);
    var (absence, s7) :- ReadBool(s6);
    var (receivedEpoch, s8) :- ReadU64(s7);
    var (receivedMs, s9) :- ReadI64(s8);
    var (count, s10) :- ReadU32(s9);
    if count > limits.maxSubjectsPerDocument || EvidenceOf(evidence).None? then Bad else
    if !ValidIdText(observation) || !ValidIdText(scope) || !ValidIdText(reporter) then Bad else
    var (subjects, s11) :- ReadSubjects(limits, count, s10);
    var (digest, s12) :- ReadDigest(s11);
    var d := Observation(observation, scope, reporter, generation, EvidenceOf(evidence).value, complete, absence,
                         receivedEpoch, receivedMs, subjects, digest);
    if digest != ObservationDigest(d) then Bad else Got(d, s12)
  }

  lemma ReadObservationValid(limits: Limits, s: seq<byte>)
    ensures ReadObservation(limits, s).Got? ==> ValidObservation(limits, ReadObservation(limits, s).value)
  {
    hide ReadBytes, ReadU64, ReadU8, ReadBool, ReadU32, ReadDigest, ReadI64, ReadSubjects, ValidIdText, ValidSubjects,
         ObservationDigest;
    forall t: seq<byte> ensures ReadU64(t).Got? ==> ReadU64(t).value < TWO64 { ReadU64InRange(t); }
    forall t: seq<byte> ensures ReadI64(t).Got? ==> 0 - TWO63 <= ReadI64(t).value < TWO63 { ReadI64InRange(t); }
  }

  lemma ObservationSubjectsFit(d: Observation, k: seq<byte>)
    requires Fits(PutObservation(d, k))
    ensures Fits(PutSubjects(d.subjects, PutDigest(d.digest, k)))
  {
    hide PutSubjects, LE, FromLE;
  }

  lemma ReadPutObservation(limits: Limits, d: Observation, k: seq<byte>)
    requires ValidObservation(limits, d) && Fits(PutObservation(d, k))
    ensures ReadObservation(limits, PutObservation(d, k)) == Got(d, k)
  {
    hide PutBytes, ReadBytes, PutU64, ReadU64, PutI64, ReadI64, PutU8, ReadU8, PutBool, ReadBool, PutDigest, ReadDigest,
         PutSubjects, ReadU32, ReadSubjects, ValidIdText, ObservationDigest, Fits;
    IdFits(d.observation);
    IdFits(d.scope);
    IdFits(d.reporter);
    ObservationSubjectsFit(d, k);
    var k11 := PutDigest(d.digest, k);
    var k10 := PutSubjects(d.subjects, k11);
    var k9 := PutI64(d.receivedMs, k10);
    var k8 := PutU64(d.receivedEpoch, k9);
    var k7 := PutBool(d.authoritativeAbsence, k8);
    var k6 := PutBool(d.complete, k7);
    var k5 := PutU8(EvidenceCode(d.evidence), k6);
    var k4 := PutU64(d.generation, k5);
    var k3 := PutBytes(d.reporter, k4);
    var k2 := PutBytes(d.scope, k3);
    ReadPutBytes(d.observation, k2);
    ReadPutBytes(d.scope, k3);
    ReadPutBytes(d.reporter, k4);
    ReadPutU64(d.generation, k5);
    ReadPutU8(EvidenceCode(d.evidence), k6);
    ReadPutBool(d.complete, k7);
    ReadPutBool(d.authoritativeAbsence, k8);
    ReadPutU64(d.receivedEpoch, k9);
    ReadPutI64(d.receivedMs, k10);
    ReadPutSubjects(limits, d.subjects, k11);
    ReadPutDigest(d.digest, k);
  }

  // ---------------------------------------------------------------- submissions

  function PutSubmission(d: Submission, k: seq<byte>): seq<byte> {
    PutBytes(d.observation, PutBytes(d.scope, PutBytes(d.reporter,
      PutU64(d.generation, PutU8(EvidenceCode(d.evidence), PutBool(d.complete, PutBool(d.authoritativeAbsence,
        PutSubjects(d.subjects, k))))))))
  }

  predicate ValidSubmission(limits: Limits, d: Submission) {
    && ValidIdText(d.observation) && ValidIdText(d.scope) && ValidIdText(d.reporter)
    && d.generation < TWO64
    && |d.subjects| <= limits.maxSubjectsPerDocument
    && ValidSubjects(limits, d.subjects)
  }

  function ReadSubmission(limits: Limits, s: seq<byte>): (r: Read<Submission>)
    ensures r.Got? ==> ValidSubmission(limits, r.value)
  {
    var (observation, s1) :- ReadBytes(s);
    var (scope, s2) :- ReadBytes(s1);
    var (reporter, s3) :- ReadBytes(s2);
    var (generation, s4) :- ReadU64(s3);
    var (evidence, s5) :- ReadU8(s4);
    var (complete, s6) :- ReadBool(s5);
    var (absence, s7) :- ReadBool(s6);
    var (count, s8) :- ReadU32(s7);
    if count > limits.maxSubjectsPerDocument || EvidenceOf(evidence).None? then Bad else
    if !ValidIdText(observation) || !ValidIdText(scope) || !ValidIdText(reporter) then Bad else
    var (subjects, s9) :- ReadSubjects(limits, count, s8);
    ReadU64InRange(s3);
    Got(Submission(observation, scope, reporter, generation, EvidenceOf(evidence).value, complete, absence, subjects),
        s9)
  }

  lemma SubmissionSubjectsFit(d: Submission, k: seq<byte>)
    requires Fits(PutSubmission(d, k))
    ensures Fits(PutSubjects(d.subjects, k))
  {
    hide PutSubjects, LE, FromLE;
  }

  lemma ReadPutSubmission(limits: Limits, d: Submission, k: seq<byte>)
    requires ValidSubmission(limits, d) && Fits(PutSubmission(d, k))
    ensures ReadSubmission(limits, PutSubmission(d, k)) == Got(d, k)
  {
    hide PutBytes, ReadBytes, PutU64, ReadU64, PutU8, ReadU8, PutBool, ReadBool, PutSubjects, ReadU32, ReadSubjects,
         ValidIdText, Fits;
    IdFits(d.observation);
    IdFits(d.scope);
    IdFits(d.reporter);
    SubmissionSubjectsFit(d, k);
    var k8 := PutSubjects(d.subjects, k);
    var k7 := PutBool(d.authoritativeAbsence, k8);
    var k6 := PutBool(d.complete, k7);
    var k5 := PutU8(EvidenceCode(d.evidence), k6);
    var k4 := PutU64(d.generation, k5);
    var k3 := PutBytes(d.reporter, k4);
    var k2 := PutBytes(d.scope, k3);
    ReadPutBytes(d.observation, k2);
    ReadPutBytes(d.scope, k3);
    ReadPutBytes(d.reporter, k4);
    ReadPutU64(d.generation, k5);
    ReadPutU8(EvidenceCode(d.evidence), k6);
    ReadPutBool(d.complete, k7);
    ReadPutBool(d.authoritativeAbsence, k8);
    ReadPutSubjects(limits, d.subjects, k);
  }

  // ---------------------------------------------------------------- policies

  function PutIds(ids: seq<Id>, k: seq<byte>): seq<byte> {
    if ids == [] then k else PutBytes(ids[0], PutIds(ids[1..], k))
  }

  predicate AllValid(ids: seq<Id>) {
    forall i :: 0 <= i < |ids| ==> ValidIdText(ids[i])
  }

  function ReadIds(n: nat, s: seq<byte>): (r: Read<seq<Id>>)
    ensures r.Got? ==> |r.value| == n && AllValid(r.value)
  {
    if n == 0 then Got([], s) else
    var (id, s1) :- ReadBytes(s);
    if !ValidIdText(id) then Bad else
    var (rest, s2) :- ReadIds(n - 1, s1);
    Got([id] + rest, s2)
  }

  lemma {:induction false} ReadPutIds(ids: seq<Id>, k: seq<byte>)
    requires AllValid(ids)
    ensures ReadIds(|ids|, PutIds(ids, k)) == Got(ids, k)
    ensures |PutIds(ids, k)| >= |ids| + |k|
  {
    hide PutBytes, ReadBytes, ValidIdText;
    if ids != [] {
      IdFits(ids[0]);
      ReadPutBytes(ids[0], PutIds(ids[1..], k));
      PutBytesGrows(ids[0], PutIds(ids[1..], k));
      ReadPutIds(ids[1..], k);
      assert [ids[0]] + ids[1..] == ids;
    }
  }

  lemma PutBytesGrows(s: seq<byte>, k: seq<byte>)
    ensures |PutBytes(s, k)| > |k|
  {}

  /** A run of booleans, one byte each. */
  function PutBools(flags: seq<bool>, k: seq<byte>): seq<byte> {
    if flags == [] then k else PutBool(flags[0], PutBools(flags[1..], k))
  }

  function ReadBools(n: nat, s: seq<byte>): (r: Read<seq<bool>>)
    ensures r.Got? ==> |r.value| == n
  {
    if n == 0 then Got([], s) else
    var (flag, s1) :- ReadBool(s);
    var (rest, s2) :- ReadBools(n - 1, s1);
    Got([flag] + rest, s2)
  }

  lemma {:induction false} ReadPutBools(flags: seq<bool>, k: seq<byte>)
    ensures ReadBools(|flags|, PutBools(flags, k)) == Got(flags, k)
    ensures |PutBools(flags, k)| >= |k|
  {
    if flags != [] {
      ReadPutBool(flags[0], PutBools(flags[1..], k));
      ReadPutBools(flags[1..], k);
      assert [flags[0]] + flags[1..] == flags;
    }
  }

  function PolicyFlags(p: Policy): (flags: seq<bool>)
    ensures |flags| == 7
  {
    [p.requireCurrentEpoch, p.requireCoverageForAbsence, p.permitApplyMissing, p.permitApplyMismatched,
     p.permitWithdrawUnexpected, p.requireCoverageForProof, p.requireIndependentVerification]
  }

  function PutPolicyFields(p: Policy, k: seq<byte>): seq<byte> {
    PutU16(SCHEMA_VERSION, PutBytes(p.id, PutU64(p.version, PutI64(p.maxAgeMs,
      PutBools(PolicyFlags(p),
        PutU32(|p.unmanaged|, PutIds(p.unmanaged,
          PutU32(|p.observeOnly|, PutIds(p.observeOnly, k)))))))))
  }

  function PolicyDigestInput(p: Policy): seq<byte> {
    PutPolicyFields(p, [])
  }

  function PolicyDigest(p: Policy): Digest {
    Sha256Of(PolicyDigestInput(p))
  }

  function PutPolicy(p: Policy, k: seq<byte>): seq<byte> {
    PutPolicyFields(p, PutDigest(PolicyDigest(p), k))
  }

  /** Sorting a list and removing duplicates leaves its elements in order. */
  function SortUnique(ids: seq<Id>): seq<Id> {
    SortedKeys(Elements(ids))
  }

  function CanonicalisePolicy(limits: Limits, p: Policy): (r: Result<Policy>)
    ensures r.Ok? ==> Ascending(r.value.unmanaged) && Ascending(r.value.observeOnly)
    ensures r.Ok? ==> Elements(r.value.unmanaged) == Elements(p.unmanaged)
                      && Elements(r.value.observeOnly) == Elements(p.observeOnly)
  {
    var bound := limits.maxAttributesPerSubject * 16;
    if p.id == [] then Refused(Rejected, UNSUPPORTED_INPUT)
    else if p.maxAgeMs < 0 then Refused(Rejected, UNSUPPORTED_INPUT)
    else if |p.unmanaged| > bound || |p.observeOnly| > bound then Refused(LimitExceeded, PLAN_ACTION_LIMIT_REACHED)
    else
      var canonical := p.(unmanaged := SortUnique(p.unmanaged), observeOnly := SortUnique(p.observeOnly));
      if [] in canonical.unmanaged || [] in canonical.observeOnly then Refused(Rejected, UNSUPPORTED_INPUT)
      else Ok(canonical)
  }

  /** A policy as stored: canonical lists of well-formed keys. */
  predicate ValidPolicy(limits: Limits, p: Policy) {
    && ValidIdText(p.id) && p.version < TWO64 && 0 <= p.maxAgeMs < TWO63
    && Ascending(p.unmanaged) && AllValid(p.unmanaged)
    && Ascending(p.observeOnly) && AllValid(p.observeOnly)
    && |p.unmanaged| <= limits.maxAttributesPerSubject * 16
    && |p.observeOnly| <= limits.maxAttributesPerSubject * 16
  }

  lemma {:induction false} SetOfSeqSize(ids: seq<Id>)
    ensures |Elements(ids)| <= |ids|
  {
    if ids == [] {
      assert Elements(ids) == {};
    } else {
      SetOfSeqSize(ids[1..]);
      assert Elements(ids) == {ids[0]} + Elements(ids[1..]);
    }
  }

  lemma CanonicalIsValid(limits: Limits, p: Policy)
    requires ValidIdText(p.id) && p.version < TWO64 && p.maxAgeMs < TWO63
    requires AllValid(p.unmanaged) && AllValid(p.observeOnly)
    ensures CanonicalisePolicy(limits, p).Ok? ==> ValidPolicy(limits, CanonicalisePolicy(limits, p).value)
  {
    SortUniqueValid(p.unmanaged);
    SortUniqueValid(p.observeOnly);
  }

  lemma SortUniqueValid(ids: seq<Id>)
    requires AllValid(ids)
    ensures AllValid(SortUnique(ids)) && |SortUnique(ids)| <= |ids| && [] !in SortUnique(ids)
  {
    var s := SortUnique(ids);
    SetOfSeqSize(ids);
    forall x | x in s ensures ValidIdText(x) {
      assert x in Elements(s);
    }
  }

  /** A canonical list is left alone. */
  lemma SortUniqueCanonical(ids: seq<Id>)
    requires Ascending(ids)
    ensures SortUnique(ids) == ids
  {
    SortedKeysUnique(ids, Elements(ids));
  }

  /** Canonicalising a stored policy changes nothing. */
  lemma CanonicalIsFixed(limits: Limits, p: Policy)
    requires ValidPolicy(limits, p)
    ensures CanonicalisePolicy(limits, p) == Ok(p)
  {
    hide Ascending, SortUnique;
    SortUniqueCanonical(p.unmanaged);
    SortUniqueCanonical(p.observeOnly);
    SortUniqueValid(p.unmanaged);
    SortUniqueValid(p.observeOnly);
    assert p.(unmanaged := SortUnique(p.unmanaged), observeOnly := SortUnique(p.observeOnly)) == p;
  }

  function ReadPolicy(limits: Limits, s: seq<byte>): (r: Read<Policy>)
    ensures r.Got? ==> ValidPolicy(limits, r.value)
  {
    var (schema, s1) :- ReadU16(s);
    if schema != SCHEMA_VERSION then Bad else
    var (id, s2) :- ReadBytes(s1);
    var (version, s3) :- ReadU64(s2);
    var (maxAge, s4) :- ReadI64(s3);
    var (flags, s11) :- ReadBools(7, s4);
    if !ValidIdText(id) then Bad else
    var bound := limits.maxAttributesPerSubject * 16;
    var (unmanagedCount, s12) :- ReadU32(s11);
    if unmanagedCount > bound then Bad else
    var (unmanaged, s13) :- ReadIds(unmanagedCount, s12);
    var (observeOnlyCount, s14) :- ReadU32(s13);
    if observeOnlyCount > bound then Bad else
    var (observeOnly, s15) :- ReadIds(observeOnlyCount, s14);
    var parsed := Policy(id, version, maxAge, flags[0], flags[1], flags[2], flags[3], flags[4], flags[5], flags[6],
                         unmanaged, observeOnly);
    var canonical := CanonicalisePolicy(limits, parsed);
    if canonical.Refused? then Bad else
    var (digest, s16) :- ReadDigest(s15);
    ReadU64InRange(s2);
    CanonicalIsValid(limits, parsed);
    if digest != PolicyDigest(canonical.value) then Bad else Got(canonical.value, s16)
  }

  lemma ReadPutPolicyLists(limits: Limits, p: Policy, k: seq<byte>, tail: seq<byte>)
    requires ValidPolicy(limits, p)
    requires tail == PutU32(|p.unmanaged|, PutIds(p.unmanaged, PutU32(|p.observeOnly|, PutIds(p.observeOnly, k))))
    requires Fits(tail)
    ensures ReadU32(tail) == Got(|p.unmanaged|, PutIds(p.unmanaged, PutU32(|p.observeOnly|, PutIds(p.observeOnly, k))))
    ensures ReadIds(|p.unmanaged|, PutIds(p.unmanaged, PutU32(|p.observeOnly|, PutIds(p.observeOnly, k))))
         == Got(p.unmanaged, PutU32(|p.observeOnly|, PutIds(p.observeOnly, k)))
    ensures ReadU32(PutU32(|p.observeOnly|, PutIds(p.observeOnly, k))) == Got(|p.observeOnly|, PutIds(p.observeOnly, k))
    ensures ReadIds(|p.observeOnly|, PutIds(p.observeOnly, k)) == Got(p.observeOnly, k)
  {
    var k2 := PutU32(|p.observeOnly|, PutIds(p.observeOnly, k));
    ReadPutIds(p.unmanaged, k2);
    ReadPutIds(p.observeOnly, k);
    ReadPutU32(|p.unmanaged|, PutIds(p.unmanaged, k2));
    ReadPutU32(|p.observeOnly|, PutIds(p.observeOnly, k));
  }

  lemma PolicyListsFit(p: Policy, k: seq<byte>)
    requires Fits(PutPolicy(p, k))
    ensures Fits(PutU32(|p.unmanaged|, PutIds(p.unmanaged,
                   PutU32(|p.observeOnly|, PutIds(p.observeOnly, PutDigest(PolicyDigest(p), k))))))
  {
    hide PutIds, LE, FromLE, PolicyDigest, PutBools;
    ReadPutBools(PolicyFlags(p), PutU32(|p.unmanaged|, PutIds(p.unmanaged,
                   PutU32(|p.observeOnly|, PutIds(p.observeOnly, PutDigest(PolicyDigest(p), k))))));
  }

  lemma ReadPutPolicy(limits: Limits, p: Policy, k: seq<byte>)
    requires ValidPolicy(limits, p) && Fits(PutPolicy(p, k))
    ensures ReadPolicy(limits, PutPolicy(p, k)) == Got(p, k)
  {
    hide PutBytes, ReadBytes, PutU16, ReadU16, PutU32, ReadU32, PutU64, ReadU64, PutI64, ReadI64, PutBools, ReadBools,
         PutDigest, ReadDigest, PutIds, ReadIds, ValidIdText, PolicyDigest, Fits, AllValid, Ascending,
         CanonicalisePolicy;
    IdFits(p.id);
    PolicyListsFit(p, k);
    var kd := PutDigest(PolicyDigest(p), k);
    var k14 := PutU32(|p.observeOnly|, PutIds(p.observeOnly, kd));
    var k12 := PutU32(|p.unmanaged|, PutIds(p.unmanaged, k14));
    var k5 := PutBools(PolicyFlags(p), k12);
    var k4 := PutI64(p.maxAgeMs, k5);
    var k3 := PutU64(p.version, k4);
    var k2 := PutBytes(p.id, k3);
    ReadPutU16(SCHEMA_VERSION, k2);
    ReadPutBytes(p.id, k3);
    ReadPutU64(p.version, k4);
    ReadPutI64(p.maxAgeMs, k5);
    ReadPutBools(PolicyFlags(p), k12);
    ReadPutPolicyLists(limits, p, kd, k12);
    ReadPutDigest(PolicyDigest(p), k);
    CanonicalIsFixed(limits, p);
  }

  // ---------------------------------------------------------------- what a digest binds

  /** The fields of a document, read back: the schema version, then the document
      with its digest replaced by whatever follows. */
  lemma IntentFieldsBind(limits: Limits, a: Intent, b: Intent)
    requires ValidIntent(limits, a) && Fits(PutIntent(a, [])) && ValidIntent(limits, b) && Fits(PutIntent(b, []))
    requires IntentDigestInput(a) == IntentDigestInput(b)
    ensures a == b
  {
    hide PutU16, ReadU16, PutIntentFields, ReadIntent, ValidIntent, Fits, PutDigest;
    ReadPutU16(SCHEMA_VERSION, PutIntentFields(a, []));
    ReadPutU16(SCHEMA_VERSION, PutIntentFields(b, []));
    IntentFieldsThen(a, PutDigest(a.digest, []));
    IntentFieldsThen(b, PutDigest(b.digest, []));
    IntentDigestAgrees(limits, a, b);
    ReadPutIntent(limits, a, []);
    ReadPutIntent(limits, b, []);
  }

  lemma IntentDigestAgrees(limits: Limits, a: Intent, b: Intent)
    requires ValidIntent(limits, a) && ValidIntent(limits, b) && IntentDigestInput(a) == IntentDigestInput(b)
    ensures a.digest == b.digest
  {
    hide IntentDigestInput;
  }

  lemma IntentFieldsThen(d: Intent, r: seq<byte>)
    ensures PutIntentFields(d, r) == PutIntentFields(d, []) + r
  {
    hide PutBytes, PutU64, PutU8, PutBool, PutSubjects, PutLE;
    var k8 := PutSubjects(d.subjects, []);
    var k7 := PutBool(d.complete, k8);
    var k6 := PutU8(EvidenceCode(d.evidence), k7);
    var k5 := PutU64(d.policyVersion, k6);
    var k4 := PutU64(d.generation, k5);
    var k3 := PutBytes(d.definition, k4);
    var k2 := PutBytes(d.scope, k3);
    PutSubjectsThen(d.subjects, [], r);
    assert [] + r == r;
    PutBoolThen(d.complete, k8, r);
    PutU8Then(EvidenceCode(d.evidence), k7, r);
    PutU64Then(d.policyVersion, k6, r);
    PutU64Then(d.generation, k5, r);
    PutBytesThen(d.definition, k4, r);
    PutBytesThen(d.scope, k3, r);
    PutBytesThen(d.intent, k2, r);
  }

  /** Two stored intents with one digest are one intent, unless the digest collides on them. */
  lemma IntentDigestBinds(limits: Limits, a: Intent, b: Intent)
    requires ValidIntent(limits, a) && Fits(PutIntent(a, [])) && ValidIntent(limits, b) && Fits(PutIntent(b, []))
    requires a.digest == b.digest && NoCollision(IntentDigestInput(a), IntentDigestInput(b))
    ensures a == b
  {
    IntentFieldsBind(limits, a, b);
  }

  lemma ObservationFieldsThen(d: Observation, r: seq<byte>)
    ensures PutObservationFields(d, r) == PutObservationFields(d, []) + r
  {
    hide PutBytes, PutU64, PutI64, PutU8, PutBool, PutSubjects, PutLE;
    var k10 := PutSubjects(d.subjects, []);
    var k9 := PutI64(d.receivedMs, k10);
    var k8 := PutU64(d.receivedEpoch, k9);
    var k7 := PutBool(d.authoritativeAbsence, k8);
    var k6 := PutBool(d.complete, k7);
    var k5 := PutU8(EvidenceCode(d.evidence), k6);
    var k4 := PutU64(d.generation, k5);
    var k3 := PutBytes(d.reporter, k4);
    var k2 := PutBytes(d.scope, k3);
    PutSubjectsThen(d.subjects, [], r);
    assert [] + r == r;
    PutI64Then(d.receivedMs, k10, r);
    PutU64Then(d.receivedEpoch, k9, r);
    PutBoolThen(d.authoritativeAbsence, k8, r);
    PutBoolThen(d.complete, k7, r);
    PutU8Then(EvidenceCode(d.evidence), k6, r);
    PutU64Then(d.generation, k5, r);
    PutBytesThen(d.reporter, k4, r);
    PutBytesThen(d.scope, k3, r);
    PutBytesThen(d.observation, k2, r);
  }

  lemma ObservationDigestBinds(limits: Limits, a: Observation, b: Observation)
    requires ValidObservation(limits, a) && Fits(PutObservation(a, []))
    requires ValidObservation(limits, b) && Fits(PutObservation(b, []))
    requires a.digest == b.digest && NoCollision(ObservationDigestInput(a), ObservationDigestInput(b))
    ensures a == b
  {
    hide PutU16, ReadU16, PutObservationFields, ReadObservation, ValidSubjects, ValidIdText, Fits, PutDigest;
    ReadPutU16(SCHEMA_VERSION, PutObservationFields(a, []));
    ReadPutU16(SCHEMA_VERSION, PutObservationFields(b, []));
    ObservationFieldsThen(a, PutDigest(a.digest, []));
    ObservationFieldsThen(b, PutDigest(b.digest, []));
    ReadPutObservation(limits, a, []);
    ReadPutObservation(limits, b, []);
  }

  lemma PolicyFieldsThen(p: Policy, r: seq<byte>)
    ensures PutPolicyFields(p, r) == PutPolicyFields(p, []) + r
  {
    hide PutBytes, PutU16, PutU32, PutU64, PutI64, PutBools, PutIds, PutLE;
    var k7 := PutIds(p.observeOnly, []);
    var k6 := PutU32(|p.observeOnly|, k7);
    var k5 := PutIds(p.unmanaged, k6);
    var k4 := PutU32(|p.unmanaged|, k5);
    var k3 := PutBools(PolicyFlags(p), k4);
    var k2 := PutI64(p.maxAgeMs, k3);
    var k1 := PutU64(p.version, k2);
    PutIdsThen(p.observeOnly, [], r);
    assert [] + r == r;
    PutU32Then(|p.observeOnly|, k7, r);
    PutIdsThen(p.unmanaged, k6, r);
    PutU32Then(|p.unmanaged|, k5, r);
    PutBoolsThen(PolicyFlags(p), k4, r);
    PutI64Then(p.maxAgeMs, k3, r);
    PutU64Then(p.version, k2, r);
    PutBytesThen(p.id, k1, r);
    PutU16Then(SCHEMA_VERSION, PutBytes(p.id, k1), r);
  }

  lemma PolicyDigestBinds(limits: Limits, a: Policy, b: Policy)
    requires ValidPolicy(limits, a) && Fits(PutPolicy(a, [])) && ValidPolicy(limits, b) && Fits(PutPolicy(b, []))
    requires PolicyDigest(a) == PolicyDigest(b) && NoCollision(PolicyDigestInput(a), PolicyDigestInput(b))
    ensures a == b
  {
    hide PutPolicyFields, ReadPolicy, ValidPolicy, Fits, PutDigest;
    PolicyFieldsThen(a, PutDigest(PolicyDigest(a), []));
    PolicyFieldsThen(b, PutDigest(PolicyDigest(b), []));
    ReadPutPolicy(limits, a, []);
    ReadPutPolicy(limits, b, []);
  }

  // ---------------------------------------------------------------- encodings end where the next one starts

  lemma PutBoolThen(v: bool, k: seq<byte>, r: seq<byte>)
    ensures PutBool(v, k) + r == PutBool(v, k + r)
  {
    PutLEThen(if v then 1 else 0, 1, k, r);
  }

  lemma PutU8Then(v: nat, k: seq<byte>, r: seq<byte>)
    ensures PutU8(v, k) + r == PutU8(v, k + r)
  {
    PutLEThen(v, 1, k, r);
  }

  lemma PutU16Then(v: nat, k: seq<byte>, r: seq<byte>)
    ensures PutU16(v, k) + r == PutU16(v, k + r)
  {
    PutLEThen(v, 2, k, r);
  }

  lemma PutU32Then(v: nat, k: seq<byte>, r: seq<byte>)
    ensures PutU32(v, k) + r == PutU32(v, k + r)
  {
    PutLEThen(v, 4, k, r);
  }

  lemma PutU64Then(v: nat, k: seq<byte>, r: seq<byte>)
    ensures PutU64(v, k) + r == PutU64(v, k + r)
  {
    PutLEThen(v, 8, k, r);
  }

  lemma PutI64Then(v: int, k: seq<byte>, r: seq<byte>)
    ensures PutI64(v, k) + r == PutI64(v, k + r)
  {
    PutLEThen(AsU64(v), 8, k, r);
  }

  lemma PutValueThen(v: AttributeValue, k: seq<byte>, r: seq<byte>)
    ensures PutValue(v, k) + r == PutValue(v, k + r)
  {
    hide PutU8, PutBool, PutI64, PutU64, PutBytes;
    match v {
      case Boolean(b) => PutBoolThen(b, k, r); PutU8Then(2, PutBool(b, k), r);
      case Integer(i) => PutI64Then(i, k, r); PutU8Then(3, PutI64(i, k), r);
      case Unsigned(u) => PutU64Then(u, k, r); PutU8Then(4, PutU64(u, k), r);
      case Text(t) => PutBytesThen(t, k, r); PutU8Then(5, PutBytes(t, k), r);
      case Token(t) => PutBytesThen(t, k, r); PutU8Then(6, PutBytes(t, k), r);
      case Absent => PutU8Then(1, k, r);
      case InvalidValue => PutU8Then(0, k, r);
    }
  }

  lemma {:induction false} PutAttributeEntriesThen(keys: seq<Id>, m: Attributes, k: seq<byte>, r: seq<byte>)
    requires forall x :: x in keys ==> x in m
    ensures PutAttributeEntries(keys, m, k) + r == PutAttributeEntries(keys, m, k + r)
  {
    hide PutBytes, PutValue;
    if keys != [] {
      var k1 := PutAttributeEntries(keys[1..], m, k);
      PutAttributeEntriesThen(keys[1..], m, k, r);
      PutValueThen(m[keys[0]], k1, r);
      PutBytesThen(keys[0], PutValue(m[keys[0]], k1), r);
    }
  }

  lemma PutAttributesThen(m: Attributes, k: seq<byte>, r: seq<byte>)
    ensures PutAttributes(m, k) + r == PutAttributes(m, k + r)
  {
    hide PutU32, PutAttributeEntries, SortedKeys;
    var keys := SortedKeys(m.Keys);
    assert forall x :: x in keys ==> x in Elements(keys);
    PutAttributeEntriesThen(keys, m, k, r);
    PutU32Then(|m|, PutAttributeEntries(keys, m, k), r);
  }

  lemma {:induction false} PutSubjectEntriesThen(keys: seq<Id>, m: map<Id, Subject>, k: seq<byte>, r: seq<byte>)
    requires forall x :: x in keys ==> x in m
    ensures PutSubjectEntries(keys, m, k) + r == PutSubjectEntries(keys, m, k + r)
  {
    hide PutBytes, PutBool, PutAttributes;
    if keys != [] {
      var subject := m[keys[0]];
      var k1 := PutSubjectEntries(keys[1..], m, k);
      var k2 := PutAttributes(subject.attributes, k1);
      PutSubjectEntriesThen(keys[1..], m, k, r);
      PutAttributesThen(subject.attributes, k1, r);
      PutBoolThen(subject.completeAttributes, k2, r);
      PutBytesThen(keys[0], PutBool(subject.completeAttributes, k2), r);
    }
  }

  lemma PutSubjectsThen(m: map<Id, Subject>, k: seq<byte>, r: seq<byte>)
    ensures PutSubjects(m, k) + r == PutSubjects(m, k + r)
  {
    hide PutU32, PutSubjectEntries, SortedKeys;
    var keys := SortedKeys(m.Keys);
    assert forall x :: x in keys ==> x in Elements(keys);
    PutSubjectEntriesThen(keys, m, k, r);
    PutU32Then(|m|, PutSubjectEntries(keys, m, k), r);
  }

  lemma {:induction false} PutIdsThen(ids: seq<Id>, k: seq<byte>, r: seq<byte>)
    ensures PutIds(ids, k) + r == PutIds(ids, k + r)
  {
    hide PutBytes;
    if ids != [] {
      PutIdsThen(ids[1..], k, r);
      PutBytesThen(ids[0], PutIds(ids[1..], k), r);
    }
  }

  lemma {:induction false} PutBoolsThen(flags: seq<bool>, k: seq<byte>, r: seq<byte>)
    ensures PutBools(flags, k) + r == PutBools(flags, k + r)
  {
    hide PutBool;
    if flags != [] {
      PutBoolsThen(flags[1..], k, r);
      PutBoolThen(flags[0], PutBools(flags[1..], k), r);
    }
  }
}
