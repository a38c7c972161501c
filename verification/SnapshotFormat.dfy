/** The snapshot file: a fixed header with the watermark, a digest, and the payload. */
module SnapshotFormat {
  import opened Bytes
  import opened Model
  import opened Canonical
  import opened JournalFormat

  const SNAPSHOT_HEADER_BYTES: nat := 112

  /** F A B R S N A P */
  const SNAPSHOT_MAGIC: seq<byte> := [70, 65, 66, 82, 83, 78, 65, 80]

  datatype SnapshotHeader = SnapshotHeader(store: StoreId, watermark: nat, epoch: nat, createdMs: int)

  predicate ValidSnapshotHeader(h: SnapshotHeader) {
    h.watermark < TWO64 && h.epoch < TWO64 && 0 - TWO63 <= h.createdMs < TWO63
  }

  function SnapshotFields(h: SnapshotHeader, length: nat, k: seq<byte>): seq<byte> {
    SNAPSHOT_MAGIC + PutU32(FORMAT_VERSION, PutU32(SNAPSHOT_HEADER_BYTES, h.store + PutU64(h.watermark,
      PutU64(h.epoch, PutI64(h.createdMs, PutU64(length, Zeros(16) + k))))))
  }

  function SnapshotDigest(h: SnapshotHeader, payload: seq<byte>): Digest {
    Sha256Of(SnapshotFields(h, |payload|, []) + payload)
  }

  function SnapshotImage(h: SnapshotHeader, payload: seq<byte>): seq<byte> {
    SnapshotFields(h, |payload|, SnapshotDigest(h, payload) + payload)
  }

  datatype Snapshot = Snapshot(header: SnapshotHeader, payload: seq<byte>)

  datatype SnapshotPrefix = SnapshotPrefix(header: SnapshotHeader, length: nat)

  function ReadSnapshotFields(s: seq<byte>): Read<SnapshotPrefix> {
    var (magic, s1) :- ReadRaw(8, s);
    if magic != SNAPSHOT_MAGIC then Bad else
    var (version, s2) :- ReadU32(s1);
    if version != FORMAT_VERSION then Bad else
    var (size, s3) :- ReadU32(s2);
    if size != SNAPSHOT_HEADER_BYTES then Bad else
    var (store, s4) :- ReadRaw(16, s3);
    var (watermark, s5) :- ReadU64(s4);
    var (epoch, s6) :- ReadU64(s5);
    var (created, s7) :- ReadI64(s6);
    var (length, s8) :- ReadU64(s7);
    var (reserved, s9) :- ReadRaw(16, s8);
    if reserved != Zeros(16) then Bad else
    Got(SnapshotPrefix(SnapshotHeader(store, watermark, epoch, created), length), s9)
  }

  function ParseSnapshot(image: seq<byte>): Option<Snapshot> {
    if |image| < SNAPSHOT_HEADER_BYTES then None else
    var r := ReadSnapshotFields(image);
    if r.Bad? then None
    else if |image| - SNAPSHOT_HEADER_BYTES != r.value.length then None
    else if image[80..112] != Sha256Of(image[..80] + image[112..]) then None
    else Some(Snapshot(r.value.header, image[112..]))
  }

  lemma SnapshotFieldsShape(h: SnapshotHeader, length: nat, k: seq<byte>)
    ensures |SnapshotFields(h, length, [])| == 80
    ensures SnapshotFields(h, length, k) == SnapshotFields(h, length, []) + k
  {
    hide LE;
    var z := Zeros(16);
    Assoc(z, [], k);
    assert z + [] == z;
    var k8 := PutU64(length, z);
    var k7 := PutI64(h.createdMs, k8);
    var k6 := PutU64(h.epoch, k7);
    var k5 := PutU64(h.watermark, k6);
    var k4 := h.store + k5;
    var k3 := PutU32(SNAPSHOT_HEADER_BYTES, k4);
    PutLEThen(length, 8, z, k);
    PutLEThen(AsU64(h.createdMs), 8, k8, k);
    PutLEThen(h.epoch, 8, k7, k);
    PutLEThen(h.watermark, 8, k6, k);
    Assoc(h.store, k5, k);
    PutLEThen(SNAPSHOT_HEADER_BYTES, 4, k4, k);
    PutLEThen(FORMAT_VERSION, 4, k3, k);
    Assoc(SNAPSHOT_MAGIC, PutU32(FORMAT_VERSION, k3), k);
  }

  lemma ReadSnapshotFieldsOf(h: SnapshotHeader, length: nat, k: seq<byte>)
    requires ValidSnapshotHeader(h) && length < TWO64
    ensures ReadSnapshotFields(SnapshotFields(h, length, k)) == Got(SnapshotPrefix(h, length), k)
  {
    hide PutU32, ReadU32, PutU64, ReadU64, PutI64, ReadI64, ReadRaw, Zeros;
    var k9 := Zeros(16) + k;
    var k8 := PutU64(length, k9);
    var k7 := PutI64(h.createdMs, k8);
    var k6 := PutU64(h.epoch, k7);
    var k5 := PutU64(h.watermark, k6);
    var k4 := h.store + k5;
    var k3 := PutU32(SNAPSHOT_HEADER_BYTES, k4);
    ReadRawOf(SNAPSHOT_MAGIC, PutU32(FORMAT_VERSION, k3));
    ReadPutU32(FORMAT_VERSION, k3);
    ReadPutU32(SNAPSHOT_HEADER_BYTES, k4);
    ReadRawOf(h.store, k5);
    ReadPutU64(h.watermark, k6);
    ReadPutU64(h.epoch, k7);
    ReadPutI64(h.createdMs, k8);
    ReadPutU64(length, k9);
    ReadRawOf(Zeros(16), k);
  }

  lemma SnapshotDigestIs(h: SnapshotHeader, payload: seq<byte>)
    ensures SnapshotDigest(h, payload) == Sha256Of(SnapshotFields(h, |payload|, []) + payload)
  {
    hide SnapshotFields;
  }

  /** A published snapshot reads back as what was published. */
  lemma ParseSnapshotImage(h: SnapshotHeader, payload: seq<byte>)
    requires ValidSnapshotHeader(h) && |payload| < TWO64
    ensures ParseSnapshot(SnapshotImage(h, payload)) == Some(Snapshot(h, payload))
    ensures |SnapshotImage(h, payload)| == SNAPSHOT_HEADER_BYTES + |payload|
  {
    hide SnapshotFields, ReadSnapshotFields, SnapshotDigest, ValidSnapshotHeader;
    var d := SnapshotDigest(h, payload);
    var image := SnapshotImage(h, payload);
    SnapshotFieldsShape(h, |payload|, d + payload);
    ReadSnapshotFieldsOf(h, |payload|, d + payload);
    SnapshotDigestIs(h, payload);
    assert image[..80] == SnapshotFields(h, |payload|, []);
    assert image[80..112] == d;
    assert image[112..] == payload;
  }
}
