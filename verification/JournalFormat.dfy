/** The journal file: a fixed header, then records that each carry their own digest
    and a contiguous sequence number, then possibly the torn start of one more. */
module JournalFormat {
  import opened Bytes
  import opened Model
  import opened Canonical

  const JOURNAL_HEADER_BYTES: nat := 96
  const RECORD_HEADER_BYTES: nat := 56
  const RECORD_DIGEST_OFFSET: nat := 24
  const RECORD_MAGIC: nat := 0x4345_5246
  const FORMAT_VERSION: nat := 1
  const FIRST_RECORD_TYPE: nat := 1
  const LAST_RECORD_TYPE: nat := 11

  /** F A B R J N L 1 */
  const JOURNAL_MAGIC: seq<byte> := [70, 65, 66, 82, 74, 78, 76, 49]

  /** A store identity, 16 bytes. */
  type StoreId = b: seq<byte> | |b| == 16 witness Zeros(16)

  datatype JournalHeader = JournalHeader(store: StoreId, createdMs: int, base: nat)

  datatype JournalRecord = JournalRecord(sequence: nat, kind: nat, payload: seq<byte>)

  // ---------------------------------------------------------------- raw reads

  /** `n` bytes off the front. */
  function ReadRaw(n: nat, s: seq<byte>): Read<seq<byte>> {
    if |s| < n then Bad else Got(s[..n], s[n..])
  }

  lemma ReadRawOf(t: seq<byte>, k: seq<byte>)
    ensures ReadRaw(|t|, t + k) == Got(t, k)
  {
    SplitAt(t, k);
  }

  lemma RawOfRead(n: nat, s: seq<byte>)
    requires ReadRaw(n, s).Got?
    ensures s == ReadRaw(n, s).value + ReadRaw(n, s).rest && |ReadRaw(n, s).value| == n
  {
  }

  /** A number that was read is what was written there. */
  lemma PutOfReadLE(width: nat, s: seq<byte>)
    requires ReadLE(width, s).Got?
    ensures s == PutLE(ReadLE(width, s).value, width, ReadLE(width, s).rest)
    ensures ReadLE(width, s).value < Pow256(width)
  {
    LEOfFromLE(s[..width]);
    assert s == s[..width] + s[width..];
  }

  // ---------------------------------------------------------------- the header

  function HeaderFields(h: JournalHeader, k: seq<byte>): seq<byte> {
    JOURNAL_MAGIC + PutU32(FORMAT_VERSION, PutU32(JOURNAL_HEADER_BYTES, h.store + PutI64(h.createdMs,
      PutU64(h.base, Zeros(16) + k))))
  }

  function HeaderDigest(h: JournalHeader): Digest {
    Sha256Of(HeaderFields(h, []))
  }

  function HeaderImage(h: JournalHeader): seq<byte> {
    HeaderFields(h, HeaderDigest(h))
  }

  predicate ValidHeader(h: JournalHeader) {
    0 - TWO63 <= h.createdMs < TWO63 && h.base < TWO64
  }

  /** The fixed fields, and the digest bytes that follow them. */
  function ReadHeader(data: seq<byte>): Read<JournalHeader> {
    var (magic, s1) :- ReadRaw(8, data);
    if magic != JOURNAL_MAGIC then Bad else
    var (version, s2) :- ReadU32(s1);
    if version != FORMAT_VERSION then Bad else
    var (size, s3) :- ReadU32(s2);
    if size != JOURNAL_HEADER_BYTES then Bad else
    var (store, s4) :- ReadRaw(16, s3);
    var (created, s5) :- ReadI64(s4);
    var (base, s6) :- ReadU64(s5);
    var (reserved, s7) :- ReadRaw(16, s6);
    if reserved != Zeros(16) then Bad else
    Got(JournalHeader(store, created, base), s7)
  }

  function ParseHeader(data: seq<byte>): Option<JournalHeader> {
    if |data| != JOURNAL_HEADER_BYTES then None else
    var r := ReadHeader(data);
    if r.Got? && r.rest == Sha256Of(data[..64]) then Some(r.value) else None
  }

  lemma HeaderFieldsShape(h: JournalHeader, k: seq<byte>)
    ensures |HeaderFields(h, [])| == 64
    ensures HeaderFields(h, k) == HeaderFields(h, []) + k
  {
    hide LE;
    var z := Zeros(16);
    Assoc(z, [], k);
    assert z + [] == z;
    PutLEThen(h.base, 8, z, k);
    PutLEThen(AsU64(h.createdMs), 8, PutU64(h.base, z), k);
    Assoc(h.store, PutI64(h.createdMs, PutU64(h.base, z)), k);
    var k4 := h.store + PutI64(h.createdMs, PutU64(h.base, z));
    PutLEThen(JOURNAL_HEADER_BYTES, 4, k4, k);
    PutLEThen(FORMAT_VERSION, 4, PutU32(JOURNAL_HEADER_BYTES, k4), k);
    Assoc(JOURNAL_MAGIC, PutU32(FORMAT_VERSION, PutU32(JOURNAL_HEADER_BYTES, k4)), k);
  }

  lemma ReadHeaderFields(h: JournalHeader, k: seq<byte>)
    requires ValidHeader(h)
    ensures ReadHeader(HeaderFields(h, k)) == Got(h, k)
  {
    hide PutU32, ReadU32, PutU64, ReadU64, PutI64, ReadI64, ReadRaw, Zeros;
    var k7 := Zeros(16) + k;
    var k6 := PutU64(h.base, k7);
    var k5 := PutI64(h.createdMs, k6);
    var k4 := h.store + k5;
    var k3 := PutU32(JOURNAL_HEADER_BYTES, k4);
    var k2 := PutU32(FORMAT_VERSION, k3);
    ReadRawOf(JOURNAL_MAGIC, k2);
    ReadPutU32(FORMAT_VERSION, k3);
    ReadPutU32(JOURNAL_HEADER_BYTES, k4);
    ReadRawOf(h.store, k5);
    ReadPutI64(h.createdMs, k6);
    ReadPutU64(h.base, k7);
    ReadRawOf(Zeros(16), k);
  }

  lemma ParseHeaderImage(h: JournalHeader)
    requires ValidHeader(h)
    ensures |HeaderImage(h)| == JOURNAL_HEADER_BYTES
    ensures ParseHeader(HeaderImage(h)) == Some(h)
  {
    hide HeaderFields, ReadHeader, HeaderDigest, ValidHeader;
    HeaderFieldsShape(h, HeaderDigest(h));
    ReadHeaderFields(h, HeaderDigest(h));
    HeaderDigestIs(h);
    assert HeaderImage(h)[..64] == HeaderFields(h, []);
  }

  lemma HeaderDigestIs(h: JournalHeader)
    ensures HeaderDigest(h) == Sha256Of(HeaderFields(h, []))
  {
    hide HeaderFields;
  }

  lemma PutOfReadI64(s: seq<byte>)
    requires ReadI64(s).Got?
    ensures s == PutI64(ReadI64(s).value, ReadI64(s).rest)
    ensures 0 - TWO63 <= ReadI64(s).value < TWO63
  {
    PutOfReadLE(8, s);
    Pow256Values();
    var u := ReadU64(s).value;
    assert AsU64(AsI64(u)) == u;
  }

  lemma HeaderFieldsOfRead(data: seq<byte>)
    requires ReadHeader(data).Got?
    ensures data == HeaderFields(ReadHeader(data).value, ReadHeader(data).rest)
    ensures ValidHeader(ReadHeader(data).value)
  {
    hide ReadRaw, ReadLE, ReadI64, PutLE, PutI64, LE, Pow256;
    Pow256Values();
    RawOfRead(8, data);
    var s1 := ReadRaw(8, data).rest;
    PutOfReadLE(4, s1);
    var s2 := ReadU32(s1).rest;
    PutOfReadLE(4, s2);
    var s3 := ReadU32(s2).rest;
    RawOfRead(16, s3);
    var s4 := ReadRaw(16, s3).rest;
    PutOfReadI64(s4);
    var s5 := ReadI64(s4).rest;
    PutOfReadLE(8, s5);
    var s6 := ReadU64(s5).rest;
    RawOfRead(16, s6);
  }

  /** Only a header image is accepted as a header, byte for byte. */
  lemma ParsedHeaderIsImage(data: seq<byte>)
    requires ParseHeader(data).Some?
    ensures data == HeaderImage(ParseHeader(data).value) && ValidHeader(ParseHeader(data).value)
  {
    hide ReadHeader, HeaderFields, HeaderDigest, ValidHeader;
    HeaderFieldsOfRead(data);
    var h, rest := ReadHeader(data).value, ReadHeader(data).rest;
    HeaderFieldsShape(h, rest);
    HeaderDigestIs(h);
    assert data[..64] == HeaderFields(h, []);
  }

  // ---------------------------------------------------------------- record images

  function RecordFields(sequence: nat, kind: nat, length: nat, k: seq<byte>): seq<byte> {
    PutU32(RECORD_MAGIC,
           PutU16(FORMAT_VERSION, PutU16(kind, PutU16(0, PutU16(0, PutU32(length, PutU64(sequence, k)))))))
  }

  function RecordDigest(r: JournalRecord): Digest {
    Sha256Of(RecordFields(r.sequence, r.kind, |r.payload|, r.payload))
  }

  function RecordImage(r: JournalRecord): seq<byte> {
    RecordFields(r.sequence, r.kind, |r.payload|, RecordDigest(r) + r.payload)
  }

  predicate ValidRecord(limits: Limits, r: JournalRecord) {
    && r.sequence < TWO64 && FIRST_RECORD_TYPE <= r.kind <= LAST_RECORD_TYPE
    && |r.payload| <= limits.maxJournalPayloadBytes
    && limits.maxJournalPayloadBytes < TWO32
  }

  datatype RecordHeader = RecordHeader(kind: nat, length: nat, sequence: nat)

  /** The 24 fixed bytes of a record header. */
  function ReadRecordFields(s: seq<byte>): Read<RecordHeader> {
    var (magic, s1) :- ReadU32(s);
    if magic != RECORD_MAGIC then Bad else
    var (version, s2) :- ReadU16(s1);
    if version != FORMAT_VERSION then Bad else
    var (kind, s3) :- ReadU16(s2);
    if kind < FIRST_RECORD_TYPE || kind > LAST_RECORD_TYPE then Bad else
    var (flags, s4) :- ReadU16(s3);
    if flags != 0 then Bad else
    var (reserved, s5) :- ReadU16(s4);
    if reserved != 0 then Bad else
    var (length, s6) :- ReadU32(s5);
    var (sequence, s7) :- ReadU64(s6);
    Got(RecordHeader(kind, length, sequence), s7)
  }

  function DecodeRecordHeader(s: seq<byte>, maxPayload: nat): Option<RecordHeader> {
    if |s| < RECORD_HEADER_BYTES then None else
    var r := ReadRecordFields(s);
    if r.Got? && r.value.length <= maxPayload then Some(r.value) else None
  }

  function LoadU32(s: seq<byte>, offset: nat): nat
    requires offset + 4 <= |s|
  {
    FromLE(s[offset..offset + 4])
  }

  predicate VerifyRecordImage(image: seq<byte>) {
    && |image| >= RECORD_HEADER_BYTES
    && LoadU32(image, 0) == RECORD_MAGIC
    && |image| == RECORD_HEADER_BYTES + LoadU32(image, 12)
    && image[24..56] == Sha256Of(image[..24] + image[56..])
  }

  lemma RecordFieldsShape(sequence: nat, kind: nat, length: nat, k: seq<byte>)
    ensures |RecordFields(sequence, kind, length, [])| == RECORD_DIGEST_OFFSET
    ensures RecordFields(sequence, kind, length, k) == RecordFields(sequence, kind, length, []) + k
  {
    hide LE;
    assert [] + k == k;
    var k7 := PutU64(sequence, []);
    var k6 := PutU32(length, k7);
    var k5 := PutU16(0, k6);
    var k4 := PutU16(0, k5);
    var k3 := PutU16(kind, k4);
    var k2 := PutU16(FORMAT_VERSION, k3);
    PutLEThen(sequence, 8, [], k);
    PutLEThen(length, 4, k7, k);
    PutLEThen(0, 2, k6, k);
    PutLEThen(0, 2, k5, k);
    PutLEThen(kind, 2, k4, k);
    PutLEThen(FORMAT_VERSION, 2, k3, k);
    PutLEThen(RECORD_MAGIC, 4, k2, k);
  }

  lemma ReadRecordFieldsOf(sequence: nat, kind: nat, length: nat, k: seq<byte>)
    requires sequence < TWO64 && FIRST_RECORD_TYPE <= kind <= LAST_RECORD_TYPE && length < TWO32
    ensures ReadRecordFields(RecordFields(sequence, kind, length, k)) == Got(RecordHeader(kind, length, sequence), k)
  {
    hide PutU16, ReadU16, PutU32, ReadU32, PutU64, ReadU64;
    var k7 := PutU64(sequence, k);
    var k6 := PutU32(length, k7);
    var k5 := PutU16(0, k6);
    var k4 := PutU16(0, k5);
    var k3 := PutU16(kind, k4);
    var k2 := PutU16(FORMAT_VERSION, k3);
    ReadPutU32(RECORD_MAGIC, k2);
    ReadPutU16(FORMAT_VERSION, k3);
    ReadPutU16(kind, k4);
    ReadPutU16(0, k5);
    ReadPutU16(0, k6);
    ReadPutU32(length, k7);
    ReadPutU64(sequence, k);
  }

  lemma RecordFieldsOfRead(s: seq<byte>)
    requires ReadRecordFields(s).Got?
    ensures var h := ReadRecordFields(s).value;
            s == RecordFields(h.sequence, h.kind, h.length, ReadRecordFields(s).rest)
            && h.sequence < TWO64 && FIRST_RECORD_TYPE <= h.kind <= LAST_RECORD_TYPE && h.length < TWO32
  {
    hide ReadLE, PutLE, LE, Pow256;
    Pow256Values();
    PutOfReadLE(4, s);
    var s1 := ReadU32(s).rest;
    PutOfReadLE(2, s1);
    var s2 := ReadU16(s1).rest;
    PutOfReadLE(2, s2);
    var s3 := ReadU16(s2).rest;
    PutOfReadLE(2, s3);
    var s4 := ReadU16(s3).rest;
    PutOfReadLE(2, s4);
    var s5 := ReadU16(s4).rest;
    PutOfReadLE(4, s5);
    var s6 := ReadU32(s5).rest;
    PutOfReadLE(8, s6);
  }

  /** The two fields the scan also looks at by offset. */
  lemma RecordLoads(sequence: nat, kind: nat, length: nat, k: seq<byte>)
    requires length < TWO32
    ensures |RecordFields(sequence, kind, length, k)| >= RECORD_DIGEST_OFFSET
    ensures LoadU32(RecordFields(sequence, kind, length, k), 0) == RECORD_MAGIC
    ensures LoadU32(RecordFields(sequence, kind, length, k), 12) == length
  {
    hide LE, FromLE, Pow256;
    var s := RecordFields(sequence, kind, length, k);
    RecordFieldsShape(sequence, kind, length, k);
    Pow256Values();
    FromLEOfLE(RECORD_MAGIC, 4);
    FromLEOfLE(length, 4);
    assert s[0..4] == LE(RECORD_MAGIC, 4);
    var front := LE(RECORD_MAGIC, 4) + (LE(FORMAT_VERSION, 2) + (LE(kind, 2) + (LE(0, 2) + LE(0, 2))));
    assert s == front + (LE(length, 4) + PutU64(sequence, k));
    assert s[12..16] == LE(length, 4);
  }
}
