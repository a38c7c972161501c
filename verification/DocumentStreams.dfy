/** Intents as the encoder and decoder handle them: driving a writer field by field, and inserting what a reader
    yields into maps entry by entry. */
module DocumentStreams {
  import opened Bytes
  import opened Ordering
  import opened Model
  import opened Canonical
  import opened DocumentCodec

  // ---------------------------------------------------------------- encoding

  /** Everything written so far, as one chunk. */
  ghost predicate Wrote(w: CanonicalWriter, before: seq<byte>, ok: bool, bytes: seq<byte>)
    reads w
  {
    w.Valid() && Emitted(before, ok, w.buffer, w.ok, bytes)
  }

  method EncodeValue(w: CanonicalWriter, v: AttributeValue)
    requires w.Valid()
    modifies w
    ensures Wrote(w, old(w.buffer), old(w.ok), PutValue(v, []))
  {
    hide Emitted, LE;
    w.WriteU8(KindCode(v));
    ghost var b, ok := w.buffer, w.ok;
    ghost var head := LE(KindCode(v), 1);
    ghost var body: seq<byte> := [];
    match v {
      case Boolean(f) => w.WriteU8(if f then 1 else 0); body := LE(if f then 1 else 0, 1);
      case Integer(i) => w.WriteLE(AsU64(i), 8); body := LE(AsU64(i), 8);
      case Unsigned(u) => w.WriteLE(u, 8); body := LE(u, 8);
      case Text(t) => w.WriteBytes(t); body := PutBytes(t, []);
      case Token(t) => w.WriteBytes(t); body := PutBytes(t, []);
      case Absent => EmittedNothing(b, ok);
      case InvalidValue => EmittedNothing(b, ok);
    }
    EmittedLater(w, b, ok, body, old(w.buffer), old(w.ok), head);
    assert PutValue(v, []) == head + body;
  }

  /** Writing nothing keeps a good writer good and a failed one failed. */
  lemma EmittedNothing(b: seq<byte>, ok: bool)
    requires |b| <= MAX_CANONICAL_BYTES
    ensures Emitted(b, ok, b, ok, [])
  {
    assert b + [] == b;
  }

  lemma EmittedLater(w: CanonicalWriter, b: seq<byte>, ok: bool, body: seq<byte>, b0: seq<byte>, ok0: bool,
                     head: seq<byte>)
    requires w.Valid() && Emitted(b0, ok0, b, ok, head) && Emitted(b, ok, w.buffer, w.ok, body)
    ensures Wrote(w, b0, ok0, head + body)
  {
    hide Emitted;
    EmittedInSequence(b0, ok0, b, ok, w.buffer, w.ok, head, body);
  }

  lemma EntryFirst(keys: seq<Id>, m: Attributes)
    requires keys != [] && forall x :: x in keys ==> x in m
    ensures PutAttributeEntries(keys, m, [])
         == (PutBytes(keys[0], []) + PutValue(m[keys[0]], [])) + PutAttributeEntries(keys[1..], m, [])
  {
    hide PutBytes, PutValue;
    var rest := PutAttributeEntries(keys[1..], m, []);
    PutValueThen(m[keys[0]], [], rest);
    assert [] + rest == rest;
    PutBytesThen(keys[0], [], PutValue(m[keys[0]], rest));
    assert [] + PutValue(m[keys[0]], rest) == PutValue(m[keys[0]], rest);
    Assoc(PutBytes(keys[0], []), PutValue(m[keys[0]], []), rest);
  }

  method EncodeState(w: CanonicalWriter, m: Attributes)
    requires w.Valid()
    modifies w
    ensures Wrote(w, old(w.buffer), old(w.ok), PutAttributes(m, []))
  {
    hide Emitted, LE, PutBytes, PutValue, PutAttributeEntries, SortedKeys;
    var keys := SortedKeys(m.Keys);
    assert forall x :: x in keys ==> x in Elements(keys);
    w.WriteLE(|m|, 4);
    ghost var done := LE(|m|, 4);
    ghost var target := PutAttributes(m, []);
    assert keys[0..] == keys;
    assert target == done + PutAttributeEntries(keys[0..], m, []);
    var n := 0;
    while n < |keys|
      invariant 0 <= n <= |keys| && w.Valid()
      invariant Emitted(old(w.buffer), old(w.ok), w.buffer, w.ok, done)
      invariant target == done + PutAttributeEntries(keys[n..], m, [])
    {
      var key := keys[n];
      EntryFirst(keys[n..], m);
      assert keys[n..][1..] == keys[n + 1..];
      ghost var b0, ok0 := w.buffer, w.ok;
      w.WriteBytes(key);
      ghost var b1, ok1 := w.buffer, w.ok;
      EncodeValue(w, m[key]);
      EmittedInSequence(b0, ok0, b1, ok1, w.buffer, w.ok, PutBytes(key, []), PutValue(m[key], []));
      EmittedInSequence(old(w.buffer), old(w.ok), b0, ok0, w.buffer, w.ok, done,
                        PutBytes(key, []) + PutValue(m[key], []));
      Assoc(done, PutBytes(key, []) + PutValue(m[key], []), PutAttributeEntries(keys[n + 1..], m, []));
      done := done + (PutBytes(key, []) + PutValue(m[key], []));
      n := n + 1;
    }
    NoEntries(m);
    assert keys[n..] == [] && done + [] == done;
  }

  lemma NoEntries(m: Attributes)
    ensures PutAttributeEntries([], m, []) == []
  {}

  /** One subject of the table. */
  ghost function SubjectChunk(key: Id, s: Subject): seq<byte> {
    (PutBytes(key, []) + PutBool(s.completeAttributes, [])) + PutAttributes(s.attributes, [])
  }

  lemma SubjectFirst(keys: seq<Id>, m: map<Id, Subject>)
    requires keys != [] && forall x :: x in keys ==> x in m
    ensures PutSubjectEntries(keys, m, []) == SubjectChunk(keys[0], m[keys[0]]) + PutSubjectEntries(keys[1..], m, [])
  {
    hide PutBytes, PutBool, PutAttributes;
    var s, rest := m[keys[0]], PutSubjectEntries(keys[1..], m, []);
    PutAttributesThen(s.attributes, [], rest);
    assert [] + rest == rest;
    var k1 := PutAttributes(s.attributes, rest);
    PutBoolThen(s.completeAttributes, [], k1);
    assert [] + k1 == k1;
    var k2 := PutBool(s.completeAttributes, k1);
    PutBytesThen(keys[0], [], k2);
    assert [] + k2 == k2;
    Assoc(PutBool(s.completeAttributes, []), PutAttributes(s.attributes, []), rest);
    Assoc(PutBytes(keys[0], []), PutBool(s.completeAttributes, []), PutAttributes(s.attributes, []));
    Assoc(PutBytes(keys[0], []), PutBool(s.completeAttributes, []) + PutAttributes(s.attributes, []), rest);
  }

  method EncodeSubject(w: CanonicalWriter, key: Id, s: Subject)
    requires w.Valid()
    modifies w
    ensures Wrote(w, old(w.buffer), old(w.ok), SubjectChunk(key, s))
  {
    hide Emitted, LE, PutBytes, PutAttributes;
    w.WriteBytes(key);
    ghost var b1, ok1 := w.buffer, w.ok;
    w.WriteU8(if s.completeAttributes then 1 else 0);
    assert PutBool(s.completeAttributes, []) == LE(if s.completeAttributes then 1 else 0, 1);
    ghost var b2, ok2 := w.buffer, w.ok;
    EmittedInSequence(old(w.buffer), old(w.ok), b1, ok1, b2, ok2, PutBytes(key, []), PutBool(s.completeAttributes, []));
    EncodeState(w, s.attributes);
    EmittedInSequence(old(w.buffer), old(w.ok), b2, ok2, w.buffer, w.ok,
                      PutBytes(key, []) + PutBool(s.completeAttributes, []), PutAttributes(s.attributes, []));
  }

  method EncodeSubjects(w: CanonicalWriter, m: map<Id, Subject>)
    requires w.Valid()
    modifies w
    ensures Wrote(w, old(w.buffer), old(w.ok), PutSubjects(m, []))
  {
    hide Emitted, LE, SubjectChunk, PutSubjectEntries, SortedKeys;
    var keys := SortedKeys(m.Keys);
    assert forall x :: x in keys ==> x in Elements(keys);
    w.WriteLE(|m|, 4);
    ghost var done := LE(|m|, 4);
    ghost var target := PutSubjects(m, []);
    assert keys[0..] == keys;
    assert target == done + PutSubjectEntries(keys[0..], m, []);
    var n := 0;
    while n < |keys|
      invariant 0 <= n <= |keys| && w.Valid()
      invariant Emitted(old(w.buffer), old(w.ok), w.buffer, w.ok, done)
      invariant target == done + PutSubjectEntries(keys[n..], m, [])
    {
      var key := keys[n];
      ghost var chunk := SubjectChunk(key, m[key]);
      SubjectFirst(keys[n..], m);
      assert keys[n..][1..] == keys[n + 1..];
      ghost var b0, ok0 := w.buffer, w.ok;
      EncodeSubject(w, key, m[key]);
      EmittedInSequence(old(w.buffer), old(w.ok), b0, ok0, w.buffer, w.ok, done, chunk);
      Assoc(done, chunk, PutSubjectEntries(keys[n + 1..], m, []));
      done := done + chunk;
      n := n + 1;
    }
    NoSubjects(m);
    assert keys[n..] == [] && done + [] == done;
  }

  lemma NoSubjects(m: map<Id, Subject>)
    ensures PutSubjectEntries([], m, []) == []
  {}

  /** The fixed fields of an intent, before its subjects. */
  ghost function IntentHead(d: Intent): seq<byte> {
    PutBytes(d.intent, []) + PutBytes(d.scope, []) + PutBytes(d.definition, []) + LE(d.generation, 8)
    + LE(d.policyVersion, 8) + LE(EvidenceCode(d.evidence), 1) + LE(if d.complete then 1 else 0, 1)
  }

  lemma IntentChunks(d: Intent)
    ensures PutIntent(d, []) == IntentHead(d) + PutSubjects(d.subjects, []) + d.digest
  {
    hide PutSubjects, PutBytes, LE, IntentHead, PutIntentFields;
    var k := PutDigest(d.digest, []);
    assert k == d.digest && [] + k == k;
    PutSubjectsThen(d.subjects, [], k);
    HeadThen(d, k);
    Assoc(IntentHead(d), PutSubjects(d.subjects, []), k);
  }

  lemma HeadThen(d: Intent, k: seq<byte>)
    ensures PutIntentFields(d, k) == IntentHead(d) + PutSubjects(d.subjects, k)
  {
    hide PutSubjects, PutBytes, LE;
    var rest := PutSubjects(d.subjects, k);
    var k6 := PutBool(d.complete, rest);
    var k5 := PutU8(EvidenceCode(d.evidence), k6);
    var k4 := PutU64(d.policyVersion, k5);
    var k3 := PutU64(d.generation, k4);
    var k2 := PutBytes(d.definition, k3);
    PutBytesThen(d.intent, [], PutBytes(d.scope, k2));
    PutBytesThen(d.scope, [], k2);
    PutBytesThen(d.definition, [], k3);
    assert [] + k3 == k3 && [] + k2 == k2 && [] + PutBytes(d.scope, k2) == PutBytes(d.scope, k2);
    var h1 := PutBytes(d.intent, []);
    var h2 := h1 + PutBytes(d.scope, []);
    var h3 := h2 + PutBytes(d.definition, []);
    var h4 := h3 + LE(d.generation, 8);
    var h5 := h4 + LE(d.policyVersion, 8);
    var h6 := h5 + LE(EvidenceCode(d.evidence), 1);
    Assoc(h6, LE(if d.complete then 1 else 0, 1), rest);
    Assoc(h5, LE(EvidenceCode(d.evidence), 1), k6);
    Assoc(h4, LE(d.policyVersion, 8), k5);
    Assoc(h3, LE(d.generation, 8), k4);
    Assoc(h2, PutBytes(d.definition, []), k3);
    Assoc(h1, PutBytes(d.scope, []), k2);
  }

  method EncodeIntentHead(w: CanonicalWriter, d: Intent)
    requires w.Valid()
    modifies w
    ensures Wrote(w, old(w.buffer), old(w.ok), IntentHead(d))
  {
    hide Emitted, LE, PutBytes, Push, PushLE, PushBytes;
    ghost var b0, ok0 := w.buffer, w.ok;
    w.WriteBytes(d.intent);
    ghost var done, b, ok := PutBytes(d.intent, []), w.buffer, w.ok;
    w.WriteBytes(d.scope);
    EmittedInSequence(b0, ok0, b, ok, w.buffer, w.ok, done, PutBytes(d.scope, []));
    done, b, ok := done + PutBytes(d.scope, []), w.buffer, w.ok;
    w.WriteBytes(d.definition);
    EmittedInSequence(b0, ok0, b, ok, w.buffer, w.ok, done, PutBytes(d.definition, []));
    done, b, ok := done + PutBytes(d.definition, []), w.buffer, w.ok;
    w.WriteLE(d.generation, 8);
    EmittedInSequence(b0, ok0, b, ok, w.buffer, w.ok, done, LE(d.generation, 8));
    done, b, ok := done + LE(d.generation, 8), w.buffer, w.ok;
    w.WriteLE(d.policyVersion, 8);
    EmittedInSequence(b0, ok0, b, ok, w.buffer, w.ok, done, LE(d.policyVersion, 8));
    done, b, ok := done + LE(d.policyVersion, 8), w.buffer, w.ok;
    w.WriteU8(EvidenceCode(d.evidence));
    EmittedInSequence(b0, ok0, b, ok, w.buffer, w.ok, done, LE(EvidenceCode(d.evidence), 1));
    done, b, ok := done + LE(EvidenceCode(d.evidence), 1), w.buffer, w.ok;
    w.WriteU8(if d.complete then 1 else 0);
    EmittedInSequence(b0, ok0, b, ok, w.buffer, w.ok, done, LE(if d.complete then 1 else 0, 1));
  }

  /** The encoder yields the canonical bytes exactly when they stay within the ceiling, and nothing otherwise. */
  method EncodeIntent(d: Intent) returns (bytes: Option<seq<byte>>)
    ensures bytes == if Fits(PutIntent(d, [])) then Some(PutIntent(d, [])) else None
  {
    hide LE, PutBytes, PutSubjects, IntentHead, PutIntent;
    var w := new CanonicalWriter();
    EncodeIntentHead(w, d);
    ghost var b1, ok1 := w.buffer, w.ok;
    EncodeSubjects(w, d.subjects);
    ghost var b2, ok2 := w.buffer, w.ok;
    EmittedInSequence([], true, b1, ok1, b2, ok2, IntentHead(d), PutSubjects(d.subjects, []));
    w.WriteDigest(d.digest);
    EmittedInSequence([], true, b2, ok2, w.buffer, w.ok, IntentHead(d) + PutSubjects(d.subjects, []), d.digest);
    IntentChunks(d);
    assert [] + PutIntent(d, []) == PutIntent(d, []);
    if !w.ok {
      return None;
    }
    return Some(w.buffer);
  }

  // ---------------------------------------------------------------- decoding

  method DecodeValue(r: CanonicalReader) returns (good: bool, v: AttributeValue)
    requires r.Valid()
    modifies r
    ensures r.Valid()
    ensures good == (old(r.ok) && ReadValue(old(r.Rest())).Got?)
    ensures good ==> r.ok && v == ReadValue(old(r.Rest())).value && r.Rest() == ReadValue(old(r.Rest())).rest
  {
    hide ReadLE, ReadBytes;
    v := InvalidValue;
    var kind;
    good, kind := r.TakeU8();
    if !good {
      return;
    }
    if kind == 1 {
      v := Absent;
    } else if kind == 2 {
      var b;
      good, b := r.TakeU8();
      v := Boolean(b != 0);
    } else if kind == 3 {
      var u;
      good, u := r.TakeLE(8);
      v := Integer(AsI64(u));
    } else if kind == 4 {
      var u;
      good, u := r.TakeLE(8);
      v := Unsigned(u);
    } else if kind == 5 || kind == 6 {
      var t;
      good, t := r.TakeBytes();
      if good && |t| > MAX_ATTRIBUTE_TEXT {
        good := false;
      }
      v := if kind == 5 then Text(t) else Token(t);
    } else {
      good := false;
    }
  }

  method DecodeState(r: CanonicalReader, limits: Limits) returns (good: bool, m: Attributes)
    requires r.Valid() && r.ok
    modifies r
    ensures r.Valid()
    ensures good == ReadAttributes(limits, old(r.Rest())).Got?
    ensures good ==> r.ok && m == ReadAttributes(limits, old(r.Rest())).value
    ensures good ==> r.Rest() == ReadAttributes(limits, old(r.Rest())).rest
  {
    hide ReadLE, ReadAttributeEntries;
    m := map[];
    var count;
    good, count := r.TakeLE(4);
    if !good {
      return;
    }
    if count > limits.maxAttributesPerSubject {
      return false, m;
    }
    good, m := DecodeEntries(r, count);
  }

  /** The attributes, once their number is known. */
  method DecodeEntries(r: CanonicalReader, count: nat) returns (good: bool, m: Attributes)
    requires r.Valid() && r.ok
    modifies r
    ensures r.Valid()
    ensures good == ReadAttributeEntries(count, old(r.Rest()), map[]).Got?
    ensures good ==> r.ok && m == ReadAttributeEntries(count, old(r.Rest()), map[]).value
    ensures good ==> r.Rest() == ReadAttributeEntries(count, old(r.Rest()), map[]).rest
  {
    hide ReadLE, ReadBytes, ReadValue, ValidIdText, ValidValue;
    m := map[];
    ghost var whole := ReadAttributeEntries(count, r.Rest(), m);
    var n := 0;
    while n < count
      invariant 0 <= n <= count && r.Valid() && r.ok && ValidEntries(m)
      invariant whole == ReadAttributeEntries(count - n, r.Rest(), m)
    {
      var key, v;
      good, key := r.TakeBytes();
      if !good || !ValidIdText(key) {
        return false, m;
      }
      good, v := DecodeValue(r);
      if !good || key in m {
        return false, m;
      }
      m := m[key := v];
      n := n + 1;
    }
    good := true;
  }

  method DecodeSubjects(r: CanonicalReader, limits: Limits, count: nat) returns (good: bool, m: map<Id, Subject>)
    requires r.Valid() && r.ok
    modifies r
    ensures r.Valid()
    ensures good == ReadSubjects(limits, count, old(r.Rest())).Got?
    ensures good ==> r.ok && m == ReadSubjects(limits, count, old(r.Rest())).value
    ensures good ==> r.Rest() == ReadSubjects(limits, count, old(r.Rest())).rest
  {
    hide ReadLE, ReadBytes, ReadAttributes, ValidIdText, ValidAttributes;
    ghost var whole := ReadSubjects(limits, count, r.Rest());
    m := map[];
    var n := 0;
    while n < count
      invariant 0 <= n <= count && r.Valid() && r.ok && ValidSubjects(limits, m)
      invariant whole == ReadSubjectEntries(limits, count - n, r.Rest(), m)
    {
      var key, complete, attributes;
      good, key := r.TakeBytes();
      if !good {
        return false, m;
      }
      good, complete := r.TakeU8();
      if !good || !ValidIdText(key) {
        return false, m;
      }
      good, attributes := DecodeState(r, limits);
      if !good || key in m {
        return false, m;
      }
      m := m[key := Subject(complete != 0, attributes)];
      n := n + 1;
    }
    good := true;
  }

  /** The fixed fields, as the decoder collects them before it looks at any. */
  datatype Head = Head(intent: seq<byte>, scope: seq<byte>, definition: seq<byte>, generation: nat, policyVersion: nat,
                       evidence: nat, complete: bool, count: nat)

  ghost function ReadHead(s: seq<byte>): Read<Head> {
    var (intent, s1) :- ReadBytes(s);
    var (scope, s2) :- ReadBytes(s1);
    var (definition, s3) :- ReadBytes(s2);
    var (generation, s4) :- ReadU64(s3);
    var (policyVersion, s5) :- ReadU64(s4);
    var (evidence, s6) :- ReadU8(s5);
    var (complete, s7) :- ReadBool(s6);
    var (count, s8) :- ReadU32(s7);
    Got(Head(intent, scope, definition, generation, policyVersion, evidence, complete, count), s8)
  }

  method DecodeHead(r: CanonicalReader) returns (good: bool, h: Head)
    requires r.Valid() && r.ok
    modifies r
    ensures r.Valid()
    ensures good == ReadHead(old(r.Rest())).Got?
    ensures good ==> r.ok && h == ReadHead(old(r.Rest())).value && r.Rest() == ReadHead(old(r.Rest())).rest
  {
    hide ReadLE, ReadBytes;
    h := Head([], [], [], 0, 0, 0, false, 0);
    var intent, scope, definition, generation, policyVersion, evidence, complete, count;
    good, intent := r.TakeBytes();
    if !good { return; }
    good, scope := r.TakeBytes();
    if !good { return; }
    good, definition := r.TakeBytes();
    if !good { return; }
    good, generation := r.TakeLE(8);
    if !good { return; }
    good, policyVersion := r.TakeLE(8);
    if !good { return; }
    good, evidence := r.TakeU8();
    if !good { return; }
    good, complete := r.TakeU8();
    if !good { return; }
    good, count := r.TakeLE(4);
    if !good { return; }
    h := Head(intent, scope, definition, generation, policyVersion, evidence, complete != 0, count);
  }

  /** Decode an intent that must fill its bytes exactly, digest included. */
  method DecodeIntent(limits: Limits, bytes: seq<byte>) returns (d: Option<Intent>)
    ensures d == Exactly(ReadIntent(limits, bytes))
  {
    hide ReadHead, ReadSubjects, ReadDigest, IntentDigest, ValidIdText, ReadIntent;
    ReadIntentByHead(limits, bytes);
    var r := new CanonicalReader(bytes);
    var good, h := DecodeHead(r);
    if !good {
      return None;
    }
    if h.count > limits.maxSubjectsPerDocument || EvidenceOf(h.evidence).None? {
      return None;
    }
    if !ValidIdText(h.intent) || !ValidIdText(h.scope) || !ValidIdText(h.definition) {
      return None;
    }
    var subjects, digest;
    good, subjects := DecodeSubjects(r, limits, h.count);
    if !good {
      return None;
    }
    good, digest := r.TakeDigest();
    if !good {
      return None;
    }
    var document := Intent(h.intent, h.scope, h.definition, h.generation, h.policyVersion,
                           EvidenceOf(h.evidence).value, h.complete, subjects, digest);
    if digest != IntentDigest(document) || r.offset != |r.data| {
      return None;
    }
    return Some(document);
  }

  lemma ReadIntentByHead(limits: Limits, s: seq<byte>)
    ensures ReadIntent(limits, s) ==
            var head := ReadHead(s);
            if head.Bad? then Bad
            else
              var h := head.value;
              if h.count > limits.maxSubjectsPerDocument || EvidenceOf(h.evidence).None? then Bad
              else if !ValidIdText(h.intent) || !ValidIdText(h.scope) || !ValidIdText(h.definition) then Bad
              else
                var subjects := ReadSubjects(limits, h.count, head.rest);
                if subjects.Bad? then Bad
                else
                  var digest := ReadDigest(subjects.rest);
                  if digest.Bad? then Bad
                  else
                    var d := Intent(h.intent, h.scope, h.definition, h.generation, h.policyVersion,
                                    EvidenceOf(h.evidence).value, h.complete, subjects.value, digest.value);
                    if digest.value != IntentDigest(d) then Bad else Got(d, digest.rest)
  {
    hide ReadBytes, ReadLE, ReadSubjects, ReadDigest, IntentDigest, ValidIdText;
  }
}
