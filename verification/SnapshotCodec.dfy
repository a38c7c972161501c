/** The snapshot payload: every table of the durable state, each entry an encoded
    document of its own, with the bounds the loader enforces. */
module SnapshotCodec {
  import opened Bytes
  import opened Ordering
  import opened Model
  import opened Canonical
  import opened DocumentCodec
  import opened LineageCodec
  import opened StoreState

  // ---------------------------------------------------------------- tables of encoded documents

  /** An encoder that overruns the ceiling returns an empty string. */
  function Blob(raw: seq<byte>): (blob: seq<byte>)
    ensures Fits(blob)
  {
    if Fits(raw) then raw else []
  }

  function PutDocuments<V>(encode: V -> seq<byte>, xs: seq<V>, k: seq<byte>): seq<byte> {
    if xs == [] then k else PutBytes(Blob(encode(xs[0])), PutDocuments(encode, xs[1..], k))
  }

  function PutTable<V>(encode: V -> seq<byte>, xs: seq<V>, k: seq<byte>): seq<byte> {
    PutU32(|xs|, PutDocuments(encode, xs, k))
  }

  function ReadDocuments<V>(decode: seq<byte> -> Option<V>, n: nat, s: seq<byte>): Read<seq<V>> {
    if n == 0 then Got([], s) else
    var (blob, s1) :- ReadBytes(s);
    var x := decode(blob);
    if x.None? then Bad else
    var (rest, s2) :- ReadDocuments(decode, n - 1, s1);
    Got([x.value] + rest, s2)
  }

  function ReadTable<V>(bound: nat, decode: seq<byte> -> Option<V>, s: seq<byte>): Read<seq<V>> {
    var (n, s1) :- ReadU32(s);
    if n > bound then Bad else ReadDocuments(decode, n, s1)
  }

  predicate AllFit<V>(encode: V -> seq<byte>, xs: seq<V>) {
    forall i :: 0 <= i < |xs| ==> Fits(encode(xs[i]))
  }

  /** The decoder undoes the encoder, and knows an overrun when it sees one. */
  predicate Undoes<V(==)>(decode: seq<byte> -> Option<V>, encode: V -> seq<byte>, x: V) {
    decode(Blob(encode(x))) == if Fits(encode(x)) then Some(x) else None
  }

  lemma {:induction false} DocumentsLength<V>(encode: V -> seq<byte>, xs: seq<V>, k: seq<byte>)
    ensures |PutDocuments(encode, xs, k)| >= |xs| + |k|
  {
    hide Blob;
    if xs != [] { DocumentsLength(encode, xs[1..], k); }
  }

  lemma {:induction false} ReadPutDocuments<V>(decode: seq<byte> -> Option<V>, encode: V -> seq<byte>, xs: seq<V>,
                                               k: seq<byte>)
    requires forall i :: 0 <= i < |xs| ==> Undoes(decode, encode, xs[i])
    ensures ReadDocuments(decode, |xs|, PutDocuments(encode, xs, k))
         == if AllFit(encode, xs) then Got(xs, k) else Bad
    decreases |xs|
  {
    hide PutBytes, ReadBytes, Blob, Fits;
    if xs != [] {
      BlobFits(encode(xs[0]));
      ReadPutBytes(Blob(encode(xs[0])), PutDocuments(encode, xs[1..], k));
      ReadPutDocuments(decode, encode, xs[1..], k);
      assert Undoes(decode, encode, xs[0]);
      assert AllFit(encode, xs) == (Fits(encode(xs[0])) && AllFit(encode, xs[1..]));
      assert [xs[0]] + xs[1..] == xs;
    }
  }

  lemma BlobFits(raw: seq<byte>)
    ensures |Blob(raw)| <= MAX_CANONICAL_BYTES
  {
  }

  lemma ReadPutTable<V>(bound: nat, decode: seq<byte> -> Option<V>, encode: V -> seq<byte>, xs: seq<V>, k: seq<byte>)
    requires forall i :: 0 <= i < |xs| ==> Undoes(decode, encode, xs[i])
    requires Fits(PutTable(encode, xs, k))
    ensures ReadTable(bound, decode, PutTable(encode, xs, k))
         == if |xs| <= bound && AllFit(encode, xs) then Got(xs, k) else Bad
    ensures Fits(k)
  {
    hide PutDocuments, ReadDocuments, ReadU32, LE, Undoes, AllFit;
    DocumentsLength(encode, xs, k);
    ReadPutU32(|xs|, PutDocuments(encode, xs, k));
    ReadPutDocuments(decode, encode, xs, k);
  }

  // ---------------------------------------------------------------- from lists back to maps

  function Values<K, V>(m: map<K, V>, keys: seq<K>): seq<V>
    requires forall x :: x in keys ==> x in m
  {
    if keys == [] then [] else [m[keys[0]]] + Values(m, keys[1..])
  }

  /** Insert each element under its own key, in order. */
  function Index<K(==), V>(key: V -> K, xs: seq<V>, acc: map<K, V>): map<K, V>
    decreases |xs|
  {
    if xs == [] then acc else Index(key, xs[1..], acc[key(xs[0]) := xs[0]])
  }

  lemma {:induction false} ValuesOf<K, V>(m: map<K, V>, keys: seq<K>, i: nat)
    requires (forall x :: x in keys ==> x in m) && i < |keys|
    ensures |Values(m, keys)| == |keys| && Values(m, keys)[i] == m[keys[i]]
  {
    if |keys| > 1 { ValuesOf(m, keys[1..], if i > 0 then i - 1 else 0); }
  }

  lemma {:induction false} ValuesLength<K, V>(m: map<K, V>, keys: seq<K>)
    requires forall x :: x in keys ==> x in m
    ensures |Values(m, keys)| == |keys|
  {
    if keys != [] { ValuesLength(m, keys[1..]); }
  }

  lemma {:induction false} IndexOfValues<K, V>(key: V -> K, m: map<K, V>, keys: seq<K>, acc: map<K, V>)
    requires forall x :: x in keys ==> x in m && key(m[x]) == x
    ensures Index(key, Values(m, keys), acc) == acc + (map x | x in keys :: m[x])
    decreases |keys|
  {
    if keys == [] {
      assert acc + (map x | x in keys :: m[x]) == acc;
    } else {
      var v := m[keys[0]];
      assert Values(m, keys)[1..] == Values(m, keys[1..]);
      IndexOfValues(key, m, keys[1..], acc[keys[0] := v]);
      assert forall x :: x in keys <==> x == keys[0] || x in keys[1..];
      assert acc[keys[0] := v] + (map x | x in keys[1..] :: m[x]) == acc + (map x | x in keys :: m[x]);
    }
  }

  lemma IndexAll<K, V>(key: V -> K, m: map<K, V>, keys: seq<K>)
    requires (forall x :: x in keys <==> x in m) && forall x :: x in m ==> key(m[x]) == x
    ensures Index(key, Values(m, keys), map[]) == m
  {
    IndexOfValues(key, m, keys, map[]);
    assert map[] + (map x | x in keys :: m[x]) == m;
  }

  // ---------------------------------------------------------------- generation lineage

  function PutU64s(ns: seq<nat>, k: seq<byte>): seq<byte> {
    if ns == [] then k else PutU64(ns[0], PutU64s(ns[1..], k))
  }

  function ReadU64s(n: nat, s: seq<byte>): Read<seq<nat>> {
    if n == 0 then Got([], s) else
    var (x, s1) :- ReadU64(s);
    var (rest, s2) :- ReadU64s(n - 1, s1);
    Got([x] + rest, s2)
  }

  lemma {:induction false} ReadPutU64s(ns: seq<nat>, k: seq<byte>)
    requires forall i :: 0 <= i < |ns| ==> InU64(ns[i])
    ensures ReadU64s(|ns|, PutU64s(ns, k)) == Got(ns, k)
    ensures |PutU64s(ns, k)| >= |ns| + |k|
  {
    hide LE, ReadU64;
    if ns != [] {
      ReadPutU64(ns[0], PutU64s(ns[1..], k));
      ReadPutU64s(ns[1..], k);
      assert [ns[0]] + ns[1..] == ns;
    }
  }

  function PutLineages(keys: seq<Id>, m: map<Id, seq<nat>>, k: seq<byte>): seq<byte>
    requires forall x :: x in keys ==> x in m
  {
    if keys == [] then k
    else PutBytes(keys[0], PutU32(|m[keys[0]]|, PutU64s(m[keys[0]], PutLineages(keys[1..], m, k))))
  }

  function ReadLineages(limits: Limits, n: nat, s: seq<byte>, acc: map<Id, seq<nat>>): Read<map<Id, seq<nat>>> {
    if n == 0 then Got(acc, s) else
    var (key, s1) :- ReadBytes(s);
    var (count, s2) :- ReadU32(s1);
    if count > limits.maxObservationsPerScope || !ValidIdText(key) then Bad else
    var (gs, s3) :- ReadU64s(count, s2);
    ReadLineages(limits, n - 1, s3, acc[key := gs])
  }

  lemma {:induction false} LineagesLength(limits: Limits, keys: seq<Id>, m: map<Id, seq<nat>>, k: seq<byte>)
    requires (forall x :: x in keys ==> x in m) && ValidGenerationTable(limits, m)
    ensures |PutLineages(keys, m, k)| >= |keys| + |k|
    ensures keys != [] ==> |m[keys[0]]| <= |PutLineages(keys, m, k)|
  {
    hide LE, PutU64s, ValidIdText;
    if keys != [] {
      LineagesLength(limits, keys[1..], m, k);
      assert ValidGenerations(limits, m[keys[0]]);
      ReadPutU64s(m[keys[0]], PutLineages(keys[1..], m, k));
    }
  }

  lemma {:induction false} ReadPutLineages(limits: Limits, keys: seq<Id>, m: map<Id, seq<nat>>, k: seq<byte>,
                                           acc: map<Id, seq<nat>>)
    requires Ascending(keys) && (forall x :: x in keys ==> x in m)
    requires ValidGenerationTable(limits, m) && Fits(PutLineages(keys, m, k))
    ensures ReadLineages(limits, |keys|, PutLineages(keys, m, k), acc) == Got(acc + Pick(m, keys), k)
    decreases |keys|
  {
    hide PutBytes, ReadBytes, PutU32, ReadU32, PutU64s, ReadU64s, ValidIdText, Pick, Less;
    if keys == [] {
      PickNone(acc, m, keys);
    } else {
      var gs := m[keys[0]];
      var k1 := PutLineages(keys[1..], m, k);
      var k2 := PutU64s(gs, k1);
      assert ValidGenerations(limits, gs);
      LineagesLength(limits, keys, m, k);
      LineageTailFits(keys, m, k, k1);
      IdFits(keys[0]);
      ReadPutBytes(keys[0], PutU32(|gs|, k2));
      ReadPutU32(|gs|, k2);
      ReadPutU64s(gs, k1);
      AscendingHead(keys);
      ReadPutLineages(limits, keys[1..], m, k, acc[keys[0] := gs]);
      PickHead(acc, m, keys);
    }
  }

  lemma LineageTailFits(keys: seq<Id>, m: map<Id, seq<nat>>, k: seq<byte>, k1: seq<byte>)
    requires (forall x :: x in keys ==> x in m) && keys != [] && k1 == PutLineages(keys[1..], m, k)
    ensures |PutLineages(keys, m, k)| >= |k1|
  {
    hide LE;
    U64sLength(m[keys[0]], k1);
  }

  lemma {:induction false} U64sLength(ns: seq<nat>, k: seq<byte>)
    ensures |PutU64s(ns, k)| >= |k|
  {
    hide LE;
    if ns != [] { U64sLength(ns[1..], k); }
  }

  function PutGenerations(m: map<Id, seq<nat>>, k: seq<byte>): seq<byte> {
    var keys := SortedKeys(m.Keys);
    assert forall x :: x in keys ==> x in Elements(keys);
    PutU32(|m|, PutLineages(keys, m, k))
  }

  function ReadGenerations(limits: Limits, s: seq<byte>): Read<map<Id, seq<nat>>> {
    var (n, s1) :- ReadU32(s);
    if n > limits.maxScopes then Bad else ReadLineages(limits, n, s1, map[])
  }

  lemma ReadPutGenerations(limits: Limits, m: map<Id, seq<nat>>, k: seq<byte>)
    requires ValidGenerationTable(limits, m) && Fits(PutGenerations(m, k))
    ensures ReadGenerations(limits, PutGenerations(m, k)) == if |m| <= limits.maxScopes then Got(m, k) else Bad
    ensures Fits(k)
  {
    hide PutLineages, ReadLineages, ReadU32, LE, SortedKeys, Less, ValidGenerationTable;
    PickAll(m);
    var keys := SortedKeys(m.Keys);
    LineagesLength(limits, keys, m, k);
    ReadPutU32(|m|, PutLineages(keys, m, k));
    ReadPutLineages(limits, keys, m, k, map[]);
    assert map[] + Pick(m, keys) == m;
  }

  // ---------------------------------------------------------------- observation streams

  function EncodeObservation(d: Observation): seq<byte> { PutObservation(d, []) }
  function EncodeIntent(d: Intent): seq<byte> { PutIntent(d, []) }
  function EncodeAttempt(a: Attempt): seq<byte> { PutAttempt(a, []) }
  function EncodeOutcome(o: Outcome): seq<byte> { PutOutcome(o, []) }
  function EncodeFence(f: Fence): seq<byte> { PutFence(f, []) }

  function DecodeObservation(limits: Limits): seq<byte> -> Option<Observation> {
    b => Exactly(ReadObservation(limits, b))
  }

  function DecodeIntent(limits: Limits): seq<byte> -> Option<Intent> {
    b => Exactly(ReadIntent(limits, b))
  }

  function DecodeAttempt(limits: Limits): seq<byte> -> Option<Attempt> {
    b => Exactly(ReadAttempt(limits, b))
  }

  function DecodeOutcome(): seq<byte> -> Option<Outcome> {
    b => Exactly(ReadOutcome(b))
  }

  function DecodeFence(): seq<byte> -> Option<Fence> {
    b => Exactly(ReadFence(b))
  }

  lemma ReadNothing()
    ensures ReadBytes([]) == Bad && ReadDigest([]) == Bad && ReadU64([]) == Bad
  {
  }

  lemma ObservationUndone(limits: Limits, d: Observation)
    requires ValidObservation(limits, d)
    ensures Undoes(DecodeObservation(limits), EncodeObservation, d)
  {
    hide ReadBytes, PutObservation, ValidObservation;
    ReadNothing();
    if Fits(PutObservation(d, [])) { ReadPutObservation(limits, d, []); }
  }

  lemma IntentUndone(limits: Limits, d: Intent)
    requires ValidIntent(limits, d)
    ensures Undoes(DecodeIntent(limits), EncodeIntent, d)
  {
    hide ReadBytes, PutIntent, ValidIntent;
    ReadNothing();
    if Fits(PutIntent(d, [])) { ReadPutIntent(limits, d, []); }
  }

  lemma AttemptUndone(limits: Limits, a: Attempt)
    requires ValidAttempt(limits, a)
    ensures Undoes(DecodeAttempt(limits), EncodeAttempt, a)
  {
    hide ReadU64, PutAttempt, ValidAttempt, ReadAuthority, ReadTransitions;
    ReadNothing();
    if Fits(PutAttempt(a, [])) { ReadPutAttempt(limits, a, []); }
  }

  lemma OutcomeUndone(o: Outcome)
    requires ValidOutcome(o)
    ensures Undoes(DecodeOutcome(), EncodeOutcome, o)
  {
    hide ReadDigest, PutOutcome, ValidOutcome;
    ReadNothing();
    ReadPutOutcome(o, []);
  }

  lemma FenceUndone(f: Fence)
    requires ValidFence(f)
    ensures Undoes(DecodeFence(), EncodeFence, f)
  {
    hide ReadBytes, PutFence, TypedFence;
    ReadNothing();
    ReadPutFence(f, []);
  }

  function PutStreams(keys: seq<Id>, m: map<Id, seq<Observation>>, k: seq<byte>): seq<byte>
    requires forall x :: x in keys ==> x in m
  {
    if keys == [] then k
    else PutBytes(keys[0], PutTable(EncodeObservation, m[keys[0]], PutStreams(keys[1..], m, k)))
  }

  function ReadStreams(limits: Limits, n: nat, s: seq<byte>, acc: map<Id, seq<Observation>>)
    : Read<map<Id, seq<Observation>>>
  {
    if n == 0 then Got(acc, s) else
    var (key, s1) :- ReadBytes(s);
    if !ValidIdText(key) then Bad else
    var (stream, s2) :- ReadTable(limits.maxObservationsPerScope, DecodeObservation(limits), s1);
    ReadStreams(limits, n - 1, s2, acc[key := stream])
  }

  predicate StreamsFit(keys: seq<Id>, m: map<Id, seq<Observation>>)
    requires forall x :: x in keys ==> x in m
  {
    forall x :: x in keys ==> AllFit(EncodeObservation, m[x])
  }

  lemma {:induction false} StreamsLength(keys: seq<Id>, m: map<Id, seq<Observation>>, k: seq<byte>)
    requires forall x :: x in keys ==> x in m
    ensures |PutStreams(keys, m, k)| >= |keys| + |k|
    ensures keys != [] ==>
              |PutStreams(keys, m, k)| >= |PutTable(EncodeObservation, m[keys[0]], PutStreams(keys[1..], m, k))|
  {
    hide LE, PutDocuments;
    if keys != [] {
      StreamsLength(keys[1..], m, k);
      DocumentsLength(EncodeObservation, m[keys[0]], PutStreams(keys[1..], m, k));
    }
  }

  lemma {:induction false} ReadPutStreams(limits: Limits, keys: seq<Id>, m: map<Id, seq<Observation>>, k: seq<byte>,
                                          acc: map<Id, seq<Observation>>)
    requires Ascending(keys) && (forall x :: x in keys ==> x in m)
    requires ValidObservations(limits, m) && Fits(PutStreams(keys, m, k))
    ensures ReadStreams(limits, |keys|, PutStreams(keys, m, k), acc)
         == if StreamsFit(keys, m) then Got(acc + Pick(m, keys), k) else Bad
    decreases |keys|
  {
    hide PutBytes, ReadBytes, PutTable, ReadTable, ValidIdText, ValidObservation, Pick, Less, Fits, AllFit,
         EncodeObservation, DecodeObservation, Undoes;
    if keys == [] {
      PickNone(acc, m, keys);
    } else {
      var stream := m[keys[0]];
      var k1 := PutStreams(keys[1..], m, k);
      assert ValidStream(limits, keys[0], stream);
      forall i | 0 <= i < |stream| ensures Undoes(DecodeObservation(limits), EncodeObservation, stream[i]) {
        ObservationUndone(limits, stream[i]);
      }
      StreamFits(keys, m, k);
      IdFits(keys[0]);
      ReadPutBytes(keys[0], PutTable(EncodeObservation, stream, k1));
      ReadPutTable(limits.maxObservationsPerScope, DecodeObservation(limits), EncodeObservation, stream, k1);
      AscendingHead(keys);
      ReadPutStreams(limits, keys[1..], m, k, acc[keys[0] := stream]);
      PickHead(acc, m, keys);
      assert StreamsFit(keys, m) == (AllFit(EncodeObservation, stream) && StreamsFit(keys[1..], m)) by {
        assert forall x :: x in keys <==> x == keys[0] || x in keys[1..];
      }
    }
  }

  lemma StreamFits(keys: seq<Id>, m: map<Id, seq<Observation>>, k: seq<byte>)
    requires keys != [] && (forall x :: x in keys ==> x in m)
    requires Fits(PutStreams(keys, m, k))
    ensures Fits(PutTable(EncodeObservation, m[keys[0]], PutStreams(keys[1..], m, k)))
    ensures Fits(PutStreams(keys[1..], m, k))
  {
    hide PutTable, PutStreams;
    StreamsLength(keys, m, k);
    TableLength(EncodeObservation, m[keys[0]], PutStreams(keys[1..], m, k));
  }

  lemma TableLength<V>(encode: V -> seq<byte>, xs: seq<V>, k: seq<byte>)
    ensures |PutTable(encode, xs, k)| >= |xs| + |k|
  {
    hide PutDocuments, LE;
    DocumentsLength(encode, xs, k);
  }

  function PutObservations(m: map<Id, seq<Observation>>, k: seq<byte>): seq<byte> {
    var keys := SortedKeys(m.Keys);
    assert forall x :: x in keys ==> x in Elements(keys);
    PutU32(|m|, PutStreams(keys, m, k))
  }

  function ReadObservations(limits: Limits, s: seq<byte>): Read<map<Id, seq<Observation>>> {
    var (n, s1) :- ReadU32(s);
    if n > limits.maxScopes then Bad else ReadStreams(limits, n, s1, map[])
  }

  predicate ObservationsFit(m: map<Id, seq<Observation>>) {
    forall x :: x in m ==> AllFit(EncodeObservation, m[x])
  }

  lemma ReadPutObservations(limits: Limits, m: map<Id, seq<Observation>>, k: seq<byte>)
    requires ValidObservations(limits, m) && Fits(PutObservations(m, k))
    ensures ReadObservations(limits, PutObservations(m, k))
         == if |m| <= limits.maxScopes && ObservationsFit(m) then Got(m, k) else Bad
    ensures Fits(k)
  {
    hide PutStreams, ReadStreams, ReadU32, LE, SortedKeys, Less, ValidObservations, AllFit;
    PickAll(m);
    var keys := SortedKeys(m.Keys);
    StreamsLength(keys, m, k);
    ReadPutU32(|m|, PutStreams(keys, m, k));
    ReadPutStreams(limits, keys, m, k, map[]);
    assert map[] + Pick(m, keys) == m;
  }

  // ---------------------------------------------------------------- the payload

  function PutPolicyOption(p: Option<Policy>, k: seq<byte>): seq<byte> {
    PutBool(p.Some?, if p.Some? then PutBytes(Blob(PutPolicy(p.value, [])), k) else k)
  }

  function ReadPolicyOption(limits: Limits, s: seq<byte>): Read<Option<Policy>> {
    var (present, s1) :- ReadBool(s);
    if !present then Got(None, s1) else
    var (blob, s2) :- ReadBytes(s1);
    var p := Exactly(ReadPolicy(limits, blob));
    if p.None? then Bad else Got(p, s2)
  }

  predicate PolicyFits(p: Option<Policy>) {
    p.Some? ==> Fits(PutPolicy(p.value, []))
  }

  lemma ReadPutPolicyOption(limits: Limits, p: Option<Policy>, k: seq<byte>)
    requires p.Some? ==> ValidPolicy(limits, p.value)
    ensures ReadPolicyOption(limits, PutPolicyOption(p, k)) == if PolicyFits(p) then Got(p, k) else Bad
    ensures |PutPolicyOption(p, k)| >= |k|
  {
    hide PutPolicy, ReadPolicy, ValidPolicy, ReadBytes, ReadBool, LE;
    if p.Some? {
      var blob := Blob(PutPolicy(p.value, []));
      ReadPutBool(true, PutBytes(blob, k));
      ReadPutBytes(blob, k);
      if Fits(PutPolicy(p.value, [])) { ReadPutPolicy(limits, p.value, []); } else { ReadNoPolicy(limits); }
    } else {
      ReadPutBool(false, k);
    }
  }

  lemma ReadNoPolicy(limits: Limits)
    ensures ReadPolicy(limits, []) == Bad
  {
  }

  function IntentKey(d: Intent): Id { d.scope }
  function AttemptKey(a: Attempt): nat { a.id }
  function FenceKey(f: Fence): Id { f.id }

  function ValuesInOrder<V>(m: map<Id, V>): seq<V> {
    PickAll(m);
    Values(m, SortedKeys(m.Keys))
  }

  function AttemptsInOrder(m: map<nat, Attempt>): seq<Attempt> {
    Values(m, SortedIds(m.Keys))
  }

  /** The second half of the payload, from the attempt table on. */
  function PutLineageTables(t: Tables, compactions: nat, k: seq<byte>): seq<byte> {
    PutTable(EncodeAttempt, AttemptsInOrder(t.attempts),
             PutTable(EncodeOutcome, t.outcomes,
                      PutTable(EncodeFence, ValuesInOrder(t.fences), PutU64(compactions, k))))
  }

  function PutTables(t: Tables, compactions: nat, k: seq<byte>): seq<byte> {
    PutU16(SCHEMA_VERSION, PutU64(t.lastEpoch, PutU64(t.nextAttempt, PutPolicyOption(t.policy,
      PutGenerations(t.generations, PutTable(EncodeIntent, ValuesInOrder(t.intents),
        PutObservations(t.observations, PutLineageTables(t, compactions, k))))))))
  }

  datatype Loaded = Loaded(tables: Tables, compactions: nat)

  function ReadLineageTables(limits: Limits, head: Tables, s: seq<byte>): Read<Loaded> {
    var (attempts, s1) :- ReadTable(limits.maxAttempts, DecodeAttempt(limits), s);
    var (outcomes, s2) :- ReadTable(limits.maxOutcomes, DecodeOutcome(), s1);
    var (fences, s3) :- ReadTable(limits.maxScopes * 16, DecodeFence(), s2);
    var (compactions, s4) :- ReadU64(s3);
    Got(Loaded(head.(attempts := Index(AttemptKey, attempts, map[]), outcomes := outcomes,
                     fences := Index(FenceKey, fences, map[])), compactions), s4)
  }

  function ReadTables(limits: Limits, s: seq<byte>): Read<Loaded> {
    var (schema, s1) :- ReadU16(s);
    if schema != SCHEMA_VERSION then Bad else
    var (lastEpoch, s2) :- ReadU64(s1);
    var (nextAttempt, s3) :- ReadU64(s2);
    var (policy, s4) :- ReadPolicyOption(limits, s3);
    var (generations, s5) :- ReadGenerations(limits, s4);
    var (intents, s6) :- ReadTable(limits.maxScopes, DecodeIntent(limits), s5);
    var (observations, s7) :- ReadObservations(limits, s6);
    var tables := Tables(lastEpoch, if nextAttempt == 0 then 1 else nextAttempt, policy,
                         Index(IntentKey, intents, map[]), generations, observations, map[], [], map[]);
    ReadLineageTables(limits, tables, s7)
  }

  /** `EncodeSnapshotPayload`: the writer's ceiling applies to the whole. */
  function EncodeSnapshot(t: Tables, compactions: nat): Option<seq<byte>> {
    var bytes := PutTables(t, compactions, []);
    if Fits(bytes) then Some(bytes) else None
  }

  /** `ApplySnapshotPayload`. */
  function DecodeSnapshot(limits: Limits, payload: seq<byte>): Option<Loaded> {
    Exactly(ReadTables(limits, payload))
  }

  predicate LineageLoadable(limits: Limits, t: Tables) {
    && |t.attempts| <= limits.maxAttempts && AllFit(EncodeAttempt, AttemptsInOrder(t.attempts))
    && AllFit(EncodeOutcome, t.outcomes)
    && |t.fences| <= limits.maxScopes * 16 && AllFit(EncodeFence, ValuesInOrder(t.fences))
  }

  /** The bounds the loader enforces, on a state the append path does not bound. */
  predicate Loadable(limits: Limits, t: Tables) {
    && PolicyFits(t.policy)
    && |t.generations| <= limits.maxScopes
    && |t.intents| <= limits.maxScopes && AllFit(EncodeIntent, ValuesInOrder(t.intents))
    && |t.observations| <= limits.maxScopes && ObservationsFit(t.observations)
    && LineageLoadable(limits, t)
  }

  lemma ValuesUndone<V>(m: map<Id, V>, i: nat)
    requires i < |ValuesInOrder(m)|
    ensures exists x :: x in m && ValuesInOrder(m)[i] == m[x]
    ensures |ValuesInOrder(m)| == |m|
  {
    PickAll(m);
    ValuesLength(m, SortedKeys(m.Keys));
    ValuesOf(m, SortedKeys(m.Keys), i);
  }

  lemma ValuesCount<V>(m: map<Id, V>)
    ensures |ValuesInOrder(m)| == |m|
  {
    PickAll(m);
    ValuesLength(m, SortedKeys(m.Keys));
  }

  lemma ReadPutIntents(limits: Limits, m: map<Id, Intent>, k: seq<byte>)
    requires ValidIntents(limits, m) && Fits(PutTable(EncodeIntent, ValuesInOrder(m), k))
    ensures ReadTable(limits.maxScopes, DecodeIntent(limits), PutTable(EncodeIntent, ValuesInOrder(m), k))
         == if |m| <= limits.maxScopes && AllFit(EncodeIntent, ValuesInOrder(m)) then Got(ValuesInOrder(m), k)
            else Bad
    ensures Index(IntentKey, ValuesInOrder(m), map[]) == m && Fits(k)
  {
    hide PutTable, ReadTable, ValidIntent, Undoes, EncodeIntent, DecodeIntent, Fits, AllFit, Index, Values, SortedKeys;
    var xs := ValuesInOrder(m);
    forall i | 0 <= i < |xs| ensures Undoes(DecodeIntent(limits), EncodeIntent, xs[i]) {
      ValuesUndone(m, i);
      IntentUndone(limits, xs[i]);
    }
    ValuesCount(m);
    ReadPutTable(limits.maxScopes, DecodeIntent(limits), EncodeIntent, xs, k);
    PickAll(m);
    IndexAll(IntentKey, m, SortedKeys(m.Keys));
  }

  lemma ReadPutFences(bound: nat, m: map<Id, Fence>, k: seq<byte>)
    requires ValidFences(m) && Fits(PutTable(EncodeFence, ValuesInOrder(m), k))
    ensures ReadTable(bound, DecodeFence(), PutTable(EncodeFence, ValuesInOrder(m), k))
         == if |m| <= bound && AllFit(EncodeFence, ValuesInOrder(m)) then Got(ValuesInOrder(m), k) else Bad
    ensures Index(FenceKey, ValuesInOrder(m), map[]) == m && Fits(k)
  {
    hide PutTable, ReadTable, ValidFence, Undoes, EncodeFence, DecodeFence, Fits, AllFit, Index, Values, SortedKeys;
    var xs := ValuesInOrder(m);
    forall i | 0 <= i < |xs| ensures Undoes(DecodeFence(), EncodeFence, xs[i]) {
      ValuesUndone(m, i);
      FenceUndone(xs[i]);
    }
    ValuesCount(m);
    ReadPutTable(bound, DecodeFence(), EncodeFence, xs, k);
    PickAll(m);
    IndexAll(FenceKey, m, SortedKeys(m.Keys));
  }

  lemma ReadPutAttempts(limits: Limits, m: map<nat, Attempt>, k: seq<byte>)
    requires ValidAttempts(limits, m) && Fits(PutTable(EncodeAttempt, AttemptsInOrder(m), k))
    ensures ReadTable(limits.maxAttempts, DecodeAttempt(limits), PutTable(EncodeAttempt, AttemptsInOrder(m), k))
         == if |m| <= limits.maxAttempts && AllFit(EncodeAttempt, AttemptsInOrder(m))
            then Got(AttemptsInOrder(m), k) else Bad
    ensures Index(AttemptKey, AttemptsInOrder(m), map[]) == m && Fits(k)
  {
    hide PutTable, ReadTable, ValidAttempt, Undoes, EncodeAttempt, DecodeAttempt, Fits, AllFit, Index, Values,
         SortedIds;
    var keys := SortedIds(m.Keys);
    var xs := AttemptsInOrder(m);
    ValuesLength(m, keys);
    forall i | 0 <= i < |xs| ensures Undoes(DecodeAttempt(limits), EncodeAttempt, xs[i]) {
      ValuesOf(m, keys, i);
      assert keys[i] in m;
      AttemptUndone(limits, xs[i]);
    }
    ReadPutTable(limits.maxAttempts, DecodeAttempt(limits), EncodeAttempt, xs, k);
    IndexAll(AttemptKey, m, keys);
  }

  lemma ReadPutOutcomes(limits: Limits, os: seq<Outcome>, k: seq<byte>)
    requires ValidOutcomes(limits, os) && Fits(PutTable(EncodeOutcome, os, k))
    ensures ReadTable(limits.maxOutcomes, DecodeOutcome(), PutTable(EncodeOutcome, os, k))
         == if AllFit(EncodeOutcome, os) then Got(os, k) else Bad
    ensures Fits(k)
  {
    hide PutTable, ReadTable, ValidOutcome, Undoes, EncodeOutcome, DecodeOutcome, Fits, AllFit;
    forall i | 0 <= i < |os| ensures Undoes(DecodeOutcome(), EncodeOutcome, os[i]) {
      OutcomeUndone(os[i]);
    }
    ReadPutTable(limits.maxOutcomes, DecodeOutcome(), EncodeOutcome, os, k);
  }

  lemma ReadPutLineageTables(limits: Limits, t: Tables, head: Tables, compactions: nat, k: seq<byte>)
    requires ValidAttempts(limits, t.attempts) && ValidOutcomes(limits, t.outcomes) && ValidFences(t.fences)
    requires InU64(compactions) && Fits(PutLineageTables(t, compactions, k))
    requires head == t.(attempts := map[], outcomes := [], fences := map[])
    ensures ReadLineageTables(limits, head, PutLineageTables(t, compactions, k))
         == if LineageLoadable(limits, t) then Got(Loaded(t, compactions), k) else Bad
  {
    hide PutTable, ReadTable, ValidAttempts, ValidOutcomes, ValidFences, EncodeAttempt, DecodeAttempt, EncodeOutcome,
         DecodeOutcome, EncodeFence, DecodeFence, Fits, AllFit, Index, AttemptsInOrder, ValuesInOrder, PutU64, ReadU64;
    var k3 := PutU64(compactions, k);
    var k2 := PutTable(EncodeFence, ValuesInOrder(t.fences), k3);
    var k1 := PutTable(EncodeOutcome, t.outcomes, k2);
    ReadPutAttempts(limits, t.attempts, k1);
    ReadPutOutcomes(limits, t.outcomes, k2);
    ReadPutFences(limits.maxScopes * 16, t.fences, k3);
    ReadPutU64(compactions, k);
  }

  lemma PayloadFits(t: Tables, compactions: nat)
    requires Fits(PutTables(t, compactions, []))
    ensures Fits(PutGenerations(t.generations, PutTable(EncodeIntent, ValuesInOrder(t.intents),
                   PutObservations(t.observations, PutLineageTables(t, compactions, [])))))
  {
    hide PutGenerations, PutTable, PutObservations, PutLineageTables, PutPolicyOption, LE, ValuesInOrder, EncodeIntent;
    var k := PutGenerations(t.generations, PutTable(EncodeIntent, ValuesInOrder(t.intents),
               PutObservations(t.observations, PutLineageTables(t, compactions, []))));
    PolicyOptionLength(t.policy, k);
  }

  lemma PolicyOptionLength(p: Option<Policy>, k: seq<byte>)
    ensures |PutPolicyOption(p, k)| >= |k|
  {
    hide PutPolicy, LE;
  }

  /** Loading what was saved gives back exactly what was saved when the tables are within
      the loader's bounds, and is refused otherwise; it never gives back anything else. */
  lemma LoadOfSave(limits: Limits, t: Tables, compactions: nat)
    requires ValidTables(limits, t) && InU64(compactions)
    requires EncodeSnapshot(t, compactions).Some?
    ensures DecodeSnapshot(limits, EncodeSnapshot(t, compactions).value)
         == if Loadable(limits, t) then Some(Loaded(t, compactions)) else None
  {
    hide PutGenerations, ReadGenerations, PutTable, ReadTable, PutObservations, ReadObservations, PutLineageTables,
         ReadLineageTables, PutPolicyOption, ReadPolicyOption, ValuesInOrder, EncodeIntent, DecodeIntent,
         LineageLoadable, ObservationsFit, PolicyFits, AllFit, Fits, PutU16, ReadU16, PutU64, ReadU64, ValidPolicy,
         ValidIntents, ValidGenerationTable, ValidObservations, ValidAttempts, ValidOutcomes, ValidFences, Index;
    var k7 := PutLineageTables(t, compactions, []);
    var k6 := PutObservations(t.observations, k7);
    var k5 := PutTable(EncodeIntent, ValuesInOrder(t.intents), k6);
    var k4 := PutGenerations(t.generations, k5);
    var k3 := PutPolicyOption(t.policy, k4);
    var k2 := PutU64(t.nextAttempt, k3);
    PayloadFits(t, compactions);
    ReadPutU16(SCHEMA_VERSION, PutU64(t.lastEpoch, k2));
    ReadPutU64(t.lastEpoch, k2);
    ReadPutU64(t.nextAttempt, k3);
    ReadPutPolicyOption(limits, t.policy, k4);
    ReadPutGenerations(limits, t.generations, k5);
    ReadPutIntents(limits, t.intents, k6);
    ReadPutObservations(limits, t.observations, k7);
    ReadPutLineageTables(limits, t, t.(attempts := map[], outcomes := [], fences := map[]), compactions, []);
  }
}
