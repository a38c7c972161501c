/** Reading a journal back: the scan that returns the records, tells a torn tail
    from corruption, and discards nothing but the torn tail. */
module JournalScan {
  import opened Bytes
  import opened Model
  import opened Canonical
  import opened JournalFormat

  function NextSequence(n: nat): nat {
    (n + 1) % TWO64
  }

  // ---------------------------------------------------------------- one step of the scan

  datatype Finding =
    | Record(record: JournalRecord, rest: seq<byte>)
    | Torn
    | Corrupt(reason: ReasonCode)

  /** What the scan makes of the bytes at one offset, none of which are consumed yet. */
  function ScanStep(limits: Limits, s: seq<byte>, expected: nat): (step: Finding)
    ensures step.Record? ==> |step.rest| < |s|
  {
    if |s| < RECORD_DIGEST_OFFSET then Torn
    else if LoadU32(s, 0) != RECORD_MAGIC then Corrupt(JOURNAL_TRAILING_GARBAGE)
    else
      var header := DecodeRecordHeader(s, limits.maxJournalPayloadBytes % TWO32);
      if header.None? then
        if |s| < RECORD_HEADER_BYTES then Torn
        else if LoadU32(s, 12) > limits.maxJournalPayloadBytes then Corrupt(JOURNAL_PAYLOAD_LENGTH_INVALID)
        else if |s| < RECORD_HEADER_BYTES + LoadU32(s, 12) then Torn
        else Corrupt(JOURNAL_RECORD_TYPE_UNKNOWN)
      else
        var total := RECORD_HEADER_BYTES + header.value.length;
        if |s| < total then Torn
        else if !VerifyRecordImage(s[..total]) then Corrupt(JOURNAL_RECORD_DIGEST_MISMATCH)
        else if header.value.sequence != expected then Corrupt(JOURNAL_SEQUENCE_REGRESSION)
        else Record(JournalRecord(header.value.sequence, header.value.kind, s[..total][RECORD_HEADER_BYTES..]),
                    s[total..])
  }

  datatype Scan =
    | Scanned(records: seq<JournalRecord>, tail: seq<byte>)
    | Unreadable(reason: ReasonCode)

  function Consed(r: JournalRecord, scan: Scan): Scan {
    if scan.Scanned? then Scanned([r] + scan.records, scan.tail) else scan
  }

  /** The whole scan. */
  function ScanFrom(limits: Limits, s: seq<byte>, expected: nat): Scan
    decreases |s|
  {
    if s == [] then Scanned([], []) else
    match ScanStep(limits, s, expected)
    case Torn => Scanned([], s)
    case Corrupt(reason) => Unreadable(reason)
    case Record(r, rest) => Consed(r, ScanFrom(limits, rest, NextSequence(r.sequence)))
  }

  // ---------------------------------------------------------------- what the records look like on disk

  /** Records whose sequences continue from `expected`. */
  predicate Contiguous(records: seq<JournalRecord>, expected: nat) {
    records == [] || (records[0].sequence == expected && Contiguous(records[1..], NextSequence(expected)))
  }

  predicate AllValidRecords(limits: Limits, records: seq<JournalRecord>) {
    forall i :: 0 <= i < |records| ==> ValidRecord(limits, records[i])
  }

  function Images(records: seq<JournalRecord>): seq<byte> {
    if records == [] then [] else RecordImage(records[0]) + Images(records[1..])
  }

  lemma RecordImageShape(r: JournalRecord)
    ensures |RecordImage(r)| == RECORD_HEADER_BYTES + |r.payload|
    ensures RecordImage(r) == RecordFields(r.sequence, r.kind, |r.payload|, []) + (RecordDigest(r) + r.payload)
  {
    hide RecordFields, RecordDigest;
    RecordFieldsShape(r.sequence, r.kind, |r.payload|, RecordDigest(r) + r.payload);
  }

  lemma RecordDigestIs(r: JournalRecord)
    ensures RecordDigest(r) == Sha256Of(RecordFields(r.sequence, r.kind, |r.payload|, []) + r.payload)
  {
    hide RecordFields;
    RecordFieldsShape(r.sequence, r.kind, |r.payload|, r.payload);
  }

  /** A record image verifies. */
  lemma ImageVerifies(limits: Limits, r: JournalRecord)
    requires ValidRecord(limits, r)
    ensures VerifyRecordImage(RecordImage(r))
    ensures RecordImage(r)[RECORD_HEADER_BYTES..] == r.payload
  {
    hide RecordFields, RecordDigest, LoadU32;
    var fields := RecordFields(r.sequence, r.kind, |r.payload|, []);
    var image := RecordImage(r);
    RecordImageShape(r);
    RecordDigestIs(r);
    RecordFieldsShape(r.sequence, r.kind, |r.payload|, []);
    RecordLoads(r.sequence, r.kind, |r.payload|, RecordDigest(r) + r.payload);
    assert image[..24] == fields;
    assert image[24..56] == RecordDigest(r);
    assert image[56..] == r.payload;
  }

  /** What verifies is a record image, byte for byte. */
  lemma VerifiedIsImage(limits: Limits, image: seq<byte>, r: JournalRecord)
    requires VerifyRecordImage(image) && ReadRecordFields(image).Got?
    requires r == JournalRecord(ReadRecordFields(image).value.sequence, ReadRecordFields(image).value.kind, image[56..])
    requires |r.payload| == ReadRecordFields(image).value.length
    ensures image == RecordImage(r)
  {
    hide RecordFields, RecordDigest, LoadU32, ReadRecordFields;
    RecordFieldsOfRead(image);
    var h, rest := ReadRecordFields(image).value, ReadRecordFields(image).rest;
    RecordFieldsShape(h.sequence, h.kind, h.length, rest);
    RecordImageShape(r);
    RecordDigestIs(r);
    assert image[..24] == RecordFields(h.sequence, h.kind, h.length, []);
    assert rest == image[24..56] + image[56..];
  }

  /** Reading the fields does not depend on what follows them. */
  lemma FieldsOfImage(limits: Limits, r: JournalRecord, t: seq<byte>)
    requires ValidRecord(limits, r)
    ensures ReadRecordFields(RecordImage(r) + t)
            == Got(RecordHeader(r.kind, |r.payload|, r.sequence), RecordDigest(r) + r.payload + t)
    ensures LoadU32(RecordImage(r) + t, 0) == RECORD_MAGIC
  {
    hide RecordFields, RecordDigest, LoadU32, ReadRecordFields;
    var k := RecordDigest(r) + r.payload + t;
    RecordImageShape(r);
    RecordFieldsShape(r.sequence, r.kind, |r.payload|, k);
    assert RecordImage(r) + t == RecordFields(r.sequence, r.kind, |r.payload|, k);
    ReadRecordFieldsOf(r.sequence, r.kind, |r.payload|, k);
    RecordLoads(r.sequence, r.kind, |r.payload|, k);
  }

  /** A complete image with the expected sequence is one step of the scan. */
  lemma StepOverImage(limits: Limits, r: JournalRecord, t: seq<byte>)
    requires ValidRecord(limits, r)
    ensures ScanStep(limits, RecordImage(r) + t, r.sequence) == Record(r, t)
  {
    hide RecordFields, RecordDigest, LoadU32, ReadRecordFields, RecordImage, VerifyRecordImage;
    var s := RecordImage(r) + t;
    FieldsOfImage(limits, r, t);
    ImageVerifies(limits, r);
    RecordImageShape(r);
    assert s[..RECORD_HEADER_BYTES + |r.payload|] == RecordImage(r);
    assert s[RECORD_HEADER_BYTES + |r.payload|..] == t;
  }

  /** A strict, non-empty prefix of an image is a torn tail. */
  lemma StepOverPrefix(limits: Limits, r: JournalRecord, k: nat, expected: nat)
    requires ValidRecord(limits, r) && 0 < k < |RecordImage(r)|
    ensures ScanStep(limits, RecordImage(r)[..k], expected) == Torn
  {
    hide RecordFields, RecordDigest, ReadRecordFields, RecordImage, LoadU32;
    var p := RecordImage(r)[..k];
    RecordImageShape(r);
    if k >= RECORD_DIGEST_OFFSET {
      PrefixFields(limits, r, k);
    }
  }

  lemma PrefixFields(limits: Limits, r: JournalRecord, k: nat)
    requires ValidRecord(limits, r) && RECORD_DIGEST_OFFSET <= k <= |RecordImage(r)|
    ensures LoadU32(RecordImage(r)[..k], 0) == RECORD_MAGIC
    ensures ReadRecordFields(RecordImage(r)[..k]).Got?
    ensures ReadRecordFields(RecordImage(r)[..k]).value == RecordHeader(r.kind, |r.payload|, r.sequence)
  {
    hide RecordFields, RecordDigest, ReadRecordFields, RecordImage, LoadU32;
    RecordImageShape(r);
    RecordFieldsShape(r.sequence, r.kind, |r.payload|, []);
    var tail := (RecordDigest(r) + r.payload)[..k - RECORD_DIGEST_OFFSET];
    RecordFieldsShape(r.sequence, r.kind, |r.payload|, tail);
    assert RecordImage(r)[..k] == RecordFields(r.sequence, r.kind, |r.payload|, tail);
    ReadRecordFieldsOf(r.sequence, r.kind, |r.payload|, tail);
    RecordLoads(r.sequence, r.kind, |r.payload|, tail);
  }

  /** Bytes the scan takes for an interrupted append. */
  predicate LooksTorn(limits: Limits, s: seq<byte>) {
    || |s| < RECORD_DIGEST_OFFSET
    || (LoadU32(s, 0) == RECORD_MAGIC
        && (|s| < RECORD_HEADER_BYTES
            || |s| - RECORD_HEADER_BYTES < LoadU32(s, 12) <= limits.maxJournalPayloadBytes))
  }

  /** What is left is discarded exactly when it is shorter than the record fields, or starts like a record and is
      shorter than it claims to be, within the limit. */
  lemma DiscardedExactly(limits: Limits, s: seq<byte>, expected: nat)
    requires limits.maxJournalPayloadBytes < TWO32
    ensures ScanStep(limits, s, expected) == Torn <==> LooksTorn(limits, s)
  {
    hide ReadRecordFields, LoadU32, VerifyRecordImage, RecordFields;
    if ReadRecordFields(s).Got? {
      RecordFieldsOfRead(s);
      var h := ReadRecordFields(s).value;
      RecordLoads(h.sequence, h.kind, h.length, ReadRecordFields(s).rest);
    }
  }

  /** A stray byte at the end is discarded, although no interrupted append leaves it. */
  lemma GarbageDiscarded(limits: Limits, b: byte, expected: nat)
    requires b != RECORD_MAGIC % 256
    ensures ScanFrom(limits, [b], expected) == Scanned([], [b]) && !TornAppend(limits, [b])
  {
    hide RecordImage, ValidRecord;
    forall r: JournalRecord, k: nat ensures !TornImage(limits, [b], r, k) {
      ImageStarts(r);
    }
  }

  lemma ImageStarts(r: JournalRecord)
    ensures |RecordImage(r)| > 0 && RecordImage(r)[0] == RECORD_MAGIC % 256
  {
    hide RecordDigest;
    assert LE(RECORD_MAGIC, 4)[0] == RECORD_MAGIC % 256;
  }

  /** Whatever step returns a record consumed exactly its image. */
  lemma StepIsImage(limits: Limits, s: seq<byte>, expected: nat)
    requires limits.maxJournalPayloadBytes < TWO32
    requires ScanStep(limits, s, expected).Record?
    ensures var step := ScanStep(limits, s, expected);
            ValidRecord(limits, step.record) && step.record.sequence == expected
            && s == RecordImage(step.record) + step.rest
  {
    hide ReadRecordFields, LoadU32, RecordImage, VerifyRecordImage, RecordFields;
    var step := ScanStep(limits, s, expected);
    var header := ReadRecordFields(s).value;
    var total := RECORD_HEADER_BYTES + header.length;
    RecordFieldsOfRead(s);
    FieldsOfPrefix(s, total);
    VerifiedIsImage(limits, s[..total], step.record);
    assert s == s[..total] + s[total..];
  }

  lemma FieldsOfPrefix(s: seq<byte>, n: nat)
    requires ReadRecordFields(s).Got? && RECORD_DIGEST_OFFSET <= n <= |s|
    ensures ReadRecordFields(s[..n]).Got? && ReadRecordFields(s[..n]).value == ReadRecordFields(s).value
  {
    hide RecordFields, ReadRecordFields;
    RecordFieldsOfRead(s);
    var h, rest := ReadRecordFields(s).value, ReadRecordFields(s).rest;
    RecordFieldsShape(h.sequence, h.kind, h.length, rest);
    RecordFieldsShape(h.sequence, h.kind, h.length, rest[..n - RECORD_DIGEST_OFFSET]);
    assert s[..n] == RecordFields(h.sequence, h.kind, h.length, rest[..n - RECORD_DIGEST_OFFSET]);
    ReadRecordFieldsOf(h.sequence, h.kind, h.length, rest[..n - RECORD_DIGEST_OFFSET]);
  }

  // ---------------------------------------------------------------- exactness of the scan

  /** `p` is what a crash can leave of an append: nothing, or a strict prefix of one image. */
  ghost predicate TornAppend(limits: Limits, p: seq<byte>) {
    p == [] || exists r: JournalRecord, k: nat :: TornImage(limits, p, r, k)
  }

  ghost predicate TornImage(limits: Limits, p: seq<byte>, r: JournalRecord, k: nat) {
    ValidRecord(limits, r) && 0 < k < |RecordImage(r)| && p == RecordImage(r)[..k]
  }

  lemma ScanOfTorn(limits: Limits, p: seq<byte>, expected: nat)
    requires TornAppend(limits, p)
    ensures ScanFrom(limits, p, expected) == Scanned([], p)
  {
    hide RecordImage, ScanStep, ValidRecord;
    if p != [] {
      var r: JournalRecord, k: nat :| TornImage(limits, p, r, k);
      StepOverPrefix(limits, r, k, expected);
    }
  }

  /** Images of contiguous records followed by a torn append scan to exactly those records. */
  lemma {:induction false} ScanOfImages(limits: Limits, records: seq<JournalRecord>, p: seq<byte>, expected: nat)
    requires AllValidRecords(limits, records) && Contiguous(records, expected) && TornAppend(limits, p)
    ensures ScanFrom(limits, Images(records) + p, expected) == Scanned(records, p)
    decreases |records|
  {
    hide RecordImage, ScanStep, ValidRecord, TornAppend;
    if records == [] {
      assert Images(records) + p == p;
      ScanOfTorn(limits, p, expected);
    } else {
      var rest := Images(records[1..]) + p;
      Assoc(RecordImage(records[0]), Images(records[1..]), p);
      StepOverImage(limits, records[0], rest);
      RecordImageShape(records[0]);
      ScanOfImages(limits, records[1..], p, NextSequence(expected));
      assert [records[0]] + records[1..] == records;
    }
  }

  /** A scan that succeeds read images of contiguous records, and left a tail that is not a record. */
  lemma {:induction false} ScanIsImages(limits: Limits, s: seq<byte>, expected: nat)
    requires limits.maxJournalPayloadBytes < TWO32
    requires ScanFrom(limits, s, expected).Scanned?
    ensures var scan := ScanFrom(limits, s, expected);
            s == Images(scan.records) + scan.tail && Contiguous(scan.records, expected)
            && AllValidRecords(limits, scan.records)
    ensures var scan := ScanFrom(limits, s, expected);
            scan.tail == [] || exists next :: ScanStep(limits, scan.tail, next) == Torn
    decreases |s|
  {
    hide RecordImage, ScanStep, ValidRecord;
    if s != [] {
      var step := ScanStep(limits, s, expected);
      match step {
        case Torn =>
          assert Images([]) + s == s;
        case Record(r, rest) =>
          StepIsImage(limits, s, expected);
          RecordImageShape(r);
          ScanIsImages(limits, rest, NextSequence(expected));
          var inner := ScanFrom(limits, rest, NextSequence(expected));
          assert ([r] + inner.records)[1..] == inner.records;
          Assoc(RecordImage(r), Images(inner.records), inner.tail);
      }
    }
  }

  // ---------------------------------------------------------------- whole files

  datatype JournalContents = JournalContents(header: JournalHeader, records: seq<JournalRecord>, tail: seq<byte>)

  function LastSequence(c: JournalContents): nat {
    if c.records == [] then c.header.base else c.records[|c.records| - 1].sequence
  }

  /** What opening makes of the bytes of an existing journal file. */
  function ReadJournal(limits: Limits, content: seq<byte>): Result<JournalContents> {
    if |content| > limits.maxJournalBytes then Refused(LimitExceeded, JOURNAL_PAYLOAD_LENGTH_INVALID)
    else if |content| < JOURNAL_HEADER_BYTES then Refused(IntegrityFailure, JOURNAL_HEADER_INVALID)
    else
      var header := ParseHeader(content[..JOURNAL_HEADER_BYTES]);
      if header.None? then Refused(IntegrityFailure, JOURNAL_HEADER_INVALID) else
      var scan := ScanFrom(limits, content[JOURNAL_HEADER_BYTES..], NextSequence(header.value.base));
      if scan.Unreadable? then Refused(IntegrityFailure, scan.reason)
      else Ok(JournalContents(header.value, scan.records, scan.tail))
  }

  function FileImage(header: JournalHeader, records: seq<JournalRecord>, tail: seq<byte>): seq<byte> {
    HeaderImage(header) + (Images(records) + tail)
  }

  /** A file made of a header, any contiguous records and the torn start of one more
      reopens to exactly those records, and exactly the torn start is discarded. */
  lemma ReadOfWritten(limits: Limits, header: JournalHeader, records: seq<JournalRecord>, p: seq<byte>)
    requires ValidHeader(header) && AllValidRecords(limits, records) && TornAppend(limits, p)
    requires Contiguous(records, NextSequence(header.base))
    requires |FileImage(header, records, p)| <= limits.maxJournalBytes
    ensures ReadJournal(limits, FileImage(header, records, p)) == Ok(JournalContents(header, records, p))
  {
    hide HeaderImage, ParseHeader, ScanFrom, Images, ValidHeader, AllValidRecords, Contiguous, TornAppend;
    ParseHeaderImage(header);
    SplitAt(HeaderImage(header), Images(records) + p);
    ScanOfImages(limits, records, p, NextSequence(header.base));
  }

  /** Conversely, an accepted file is, byte for byte, a header image, the images of the
      returned records with contiguous sequences, and the discarded tail. */
  lemma WrittenOfRead(limits: Limits, content: seq<byte>)
    requires limits.maxJournalPayloadBytes < TWO32
    requires ReadJournal(limits, content).Ok?
    ensures var c := ReadJournal(limits, content).value;
            content == FileImage(c.header, c.records, c.tail) && ValidHeader(c.header)
            && Contiguous(c.records, NextSequence(c.header.base)) && AllValidRecords(limits, c.records)
    ensures var c := ReadJournal(limits, content).value;
            c.tail == [] || exists next :: ScanStep(limits, c.tail, next) == Torn
  {
    hide HeaderImage, ParseHeader, ScanFrom, Images, ValidHeader, AllValidRecords, Contiguous, ScanStep;
    ParsedHeaderIsImage(content[..JOURNAL_HEADER_BYTES]);
    var header := ParseHeader(content[..JOURNAL_HEADER_BYTES]).value;
    ScanIsImages(limits, content[JOURNAL_HEADER_BYTES..], NextSequence(header.base));
    assert content == content[..JOURNAL_HEADER_BYTES] + content[JOURNAL_HEADER_BYTES..];
  }

  // ---------------------------------------------------------------- appending

  lemma {:induction false} ImagesAppend(records: seq<JournalRecord>, r: JournalRecord)
    ensures Images(records + [r]) == Images(records) + RecordImage(r)
  {
    hide RecordImage;
    if records == [] {
      assert records + [r] == [r] && [r][1..] == [];
      assert Images([r]) == RecordImage(r) + Images([]) == RecordImage(r);
    } else {
      assert (records + [r])[1..] == records[1..] + [r];
      ImagesAppend(records[1..], r);
      Assoc(RecordImage(records[0]), Images(records[1..]), RecordImage(r));
    }
  }
}
