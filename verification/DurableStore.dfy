/** The store as the process runs it: the journal and the durable state, updated in place,
    with the scan, replay and retention loops. Each method is one step of the protocol. */
module DurableStore {
  import opened Bytes
  import opened Model
  import opened Canonical
  import opened JournalFormat
  import opened JournalScan
  import opened SnapshotFormat
  import opened SnapshotCodec
  import opened StoreState
  import opened StoreProtocol

  // ---------------------------------------------------------------- the scan loop

  /** `Journal::Open` on the bytes of an existing file. */
  method OpenJournal(limits: Limits, content: seq<byte>, readOnly: bool)
    returns (result: Result<JournalContents>, recoveredBytes: nat)
    ensures result == if readOnly && ReadJournal(limits, content).Ok? && ReadJournal(limits, content).value.tail != []
                      then Refused(IntegrityFailure, JOURNAL_TORN_TAIL_RECOVERED) else ReadJournal(limits, content)
    ensures result.Ok? ==> recoveredBytes == |result.value.tail|
  {
    hide ScanStep, ParseHeader, Consed;
    recoveredBytes := 0;
    if |content| > limits.maxJournalBytes {
      return Refused(LimitExceeded, JOURNAL_PAYLOAD_LENGTH_INVALID), 0;
    }
    if |content| < JOURNAL_HEADER_BYTES {
      return Refused(IntegrityFailure, JOURNAL_HEADER_INVALID), 0;
    }
    var header := ParseHeader(content[..JOURNAL_HEADER_BYTES]);
    if header.None? {
      return Refused(IntegrityFailure, JOURNAL_HEADER_INVALID), 0;
    }
    var offset := JOURNAL_HEADER_BYTES;
    var expected := NextSequence(header.value.base);
    var records: seq<JournalRecord> := [];
    var torn := false;
    ghost var whole := ScanFrom(limits, content[JOURNAL_HEADER_BYTES..], expected);
    while offset < |content| && !torn
      invariant JOURNAL_HEADER_BYTES <= offset <= |content|
      invariant torn ==> offset < |content| && ScanStep(limits, content[offset..], expected) == Torn
      invariant whole == Prepend(records, ScanFrom(limits, content[offset..], expected))
      decreases |content| - offset, !torn
    {
      var step := ScanStep(limits, content[offset..], expected);
      match step {
        case Torn =>
          torn := true;
        case Corrupt(reason) =>
          return Refused(IntegrityFailure, reason), 0;
        case Record(record, rest) =>
          var size := |content| - offset - |rest|;
          StepConsumes(limits, content[offset..], expected);
          assert content[offset..][size..] == content[offset + size..];
          PrependSnoc(records, record, ScanFrom(limits, rest, NextSequence(record.sequence)));
          records := records + [record];
          expected := NextSequence(record.sequence);
          offset := offset + size;
      }
    }
    if torn {
      assert ScanFrom(limits, content[offset..], expected) == Scanned([], content[offset..]);
      if readOnly {
        return Refused(IntegrityFailure, JOURNAL_TORN_TAIL_RECOVERED), 0;
      }
      recoveredBytes := |content| - offset;
    } else {
      assert content[offset..] == [];
    }
    assert records + [] == records;
    return Ok(JournalContents(header.value, records, content[offset..])), recoveredBytes;
  }

  ghost function Prepend(records: seq<JournalRecord>, scan: Scan): Scan {
    if scan.Scanned? then Scanned(records + scan.records, scan.tail) else scan
  }

  lemma PrependSnoc(records: seq<JournalRecord>, r: JournalRecord, scan: Scan)
    ensures Prepend(records, Consed(r, scan)) == Prepend(records + [r], scan)
  {
    if scan.Scanned? { Assoc(records, [r], scan.records); }
  }

  /** What a step leaves is the rest of the bytes it looked at. */
  lemma StepConsumes(limits: Limits, s: seq<byte>, expected: nat)
    requires ScanStep(limits, s, expected).Record?
    ensures var rest := ScanStep(limits, s, expected).rest;
            |rest| < |s| && s[|s| - |rest|..] == rest
  {
    hide ReadRecordFields, VerifyRecordImage, LoadU32;
  }

  // ---------------------------------------------------------------- the replay loop

  /** The loop of `DurableStore::Open` over the journal records. */
  method ReplayRecords(limits: Limits, start: Tables, records: seq<JournalRecord>, watermark: nat)
    returns (result: Option<Tables>, replayed: nat, skipped: nat)
    ensures result == Replay(limits, start, records, watermark)
    ensures result.Some? ==> replayed + skipped == |records|
  {
    hide DecodeEntry, Apply;
    var tables := start;
    replayed, skipped := 0, 0;
    var i := 0;
    while i < |records|
      invariant 0 <= i <= |records| && replayed + skipped == i
      invariant Replay(limits, start, records, watermark) == Replay(limits, tables, records[i..], watermark)
    {
      assert records[i..][1..] == records[i + 1..];
      if records[i].sequence <= watermark {
        skipped := skipped + 1;
      } else {
        var entry := DecodeEntry(limits, records[i].kind, records[i].payload);
        if entry.None? {
          return None, replayed, skipped;
        }
        tables := Apply(limits, tables, entry.value);
        replayed := replayed + 1;
      }
      i := i + 1;
    }
    result := Some(tables);
  }

  /** `DurableStore::Open` on the two files of an existing store: load the snapshot, read the journal and cut its torn
      tail, then replay what the snapshot does not cover. */
  method OpenFiles(limits: Limits, disk: Disk) returns (result: Result<Durable>, after: Disk)
    requires disk.journal.Some?
    ensures result == OpenStore(limits, disk) && after == DiskAfterOpen(limits, disk)
  {
    hide ReadJournal, Replay, DecodeSnapshot, ParseSnapshot;
    after := disk;
    var snapshot := ReadSnapshotFile(limits, disk.snapshot);
    if snapshot.Refused? {
      return Refused(snapshot.code, snapshot.reason), after;
    }
    var content := disk.journal.value;
    var journal, recovered := OpenJournal(limits, content, false);
    if journal.Refused? {
      return Refused(journal.code, journal.reason), after;
    }
    if recovered <= |content| {
      after := disk.(journal := Some(content[..|content| - recovered]));
    }
    var start, watermark, compactions, store := EMPTY, 0, 0, journal.value.header.store;
    if snapshot.value.Some? {
      var header := snapshot.value.value.header;
      if header.store != store {
        return Refused(IntegrityFailure, SNAPSHOT_STORE_MISMATCH), after;
      }
      if header.watermark > LastSequence(journal.value) {
        return Refused(IntegrityFailure, SNAPSHOT_AHEAD_OF_JOURNAL), after;
      }
      var loaded := DecodeSnapshot(limits, snapshot.value.value.payload);
      if loaded.None? {
        return Refused(IntegrityFailure, SNAPSHOT_DIGEST_MISMATCH), after;
      }
      start, watermark, compactions := loaded.value.tables, header.watermark, loaded.value.compactions;
    }
    var tables, _, _ := ReplayRecords(limits, start, journal.value.records, watermark);
    if tables.None? {
      return Refused(IntegrityFailure, JOURNAL_ENUM_INVALID), after;
    }
    return Ok(Durable(store, LastSequence(journal.value), compactions, tables.value)), after;
  }

  // ---------------------------------------------------------------- the retention loops

  /** The first terminal attempt in identity order, if any. */
  method FirstTerminal(attempts: map<nat, Attempt>) returns (victim: Option<nat>)
    ensures victim == if TerminalIds(attempts) == {} then None else Some(Smallest(TerminalIds(attempts)))
  {
    hide IsTerminal, SortedIds, Smallest;
    var ids := SortedIds(attempts.Keys);
    var i := 0;
    while i < |ids| && !IsTerminal(attempts[ids[i]].state)
      invariant 0 <= i <= |ids|
      invariant forall j :: 0 <= j < i ==> !IsTerminal(attempts[ids[j]].state)
    {
      i := i + 1;
    }
    if i == |ids| {
      assert TerminalIds(attempts) == {} by {
        forall id | id in attempts ensures !IsTerminal(attempts[id].state) {
          assert id in ids;
        }
      }
      return None;
    }
    FirstTerminalIsSmallest(attempts, ids, i);
    return Some(ids[i]);
  }

  /** `TrimAttempts`: erase the oldest terminal attempt while the table is over its bound. */
  method TrimAttempts(limits: Limits, attempts: map<nat, Attempt>) returns (kept: map<nat, Attempt>)
    ensures kept == TrimmedAttempts(limits, attempts)
  {
    hide TerminalIds, Smallest;
    kept := attempts;
    while |kept| > limits.maxAttempts
      invariant TrimmedAttempts(limits, attempts) == TrimmedAttempts(limits, kept)
      decreases |kept|
    {
      var victim := FirstTerminal(kept);
      if victim.None? {
        return;
      }
      VictimShrinks(kept, victim.value);
      kept := kept - {victim.value};
    }
  }

  lemma VictimShrinks(attempts: map<nat, Attempt>, victim: nat)
    requires TerminalIds(attempts) != {} && victim == Smallest(TerminalIds(attempts))
    ensures |attempts - {victim}| < |attempts|
  {
    assert (attempts - {victim}).Keys == attempts.Keys - {victim};
  }

  lemma FirstTerminalIsSmallest(attempts: map<nat, Attempt>, ids: seq<nat>, i: nat)
    requires AscendingIds(ids) && (forall x :: x in ids <==> x in attempts) && i < |ids|
    requires IsTerminal(attempts[ids[i]].state) && forall j :: 0 <= j < i ==> !IsTerminal(attempts[ids[j]].state)
    ensures TerminalIds(attempts) != {} && Smallest(TerminalIds(attempts)) == ids[i]
  {
    assert ids[i] in TerminalIds(attempts);
    forall x | x in TerminalIds(attempts) ensures ids[i] <= x {
      var j :| 0 <= j < |ids| && ids[j] == x;
    }
  }

  /** `TrimObservations` and `TrimOutcomes`: pop from the front until within the bound. */
  method PopToBound<T>(s: seq<T>, bound: nat) returns (kept: seq<T>)
    ensures kept == KeepLast(s, bound) && |kept| <= |s| && kept == s[|s| - |kept|..]
  {
    kept := s;
    while |kept| > bound
      invariant kept == s[|s| - |kept|..] && (|s| >= bound ==> |kept| >= bound) && (|s| < bound ==> kept == s)
    {
      kept := kept[1..];
    }
  }

  // ---------------------------------------------------------------- the journal in place

  /** What the operating system made of a write: how many bytes reached the file, and whether the flush succeeded. */
  datatype Io = Io(written: nat, flushed: bool)

  class Journal {
    var file: seq<byte>
    var lastSequence: nat
    var writeFailed: bool
    var isOpen: bool

    constructor (content: seq<byte>, last: nat)
      ensures file == content && lastSequence == last && !writeFailed && isOpen
    {
      file, lastSequence, writeFailed, isOpen := content, last, false, true;
    }

    method WriteAll(data: seq<byte>, io: Io) returns (ok: bool)
      requires io.written <= |data|
      modifies this
      ensures isOpen == old(isOpen) && lastSequence == old(lastSequence)
      ensures ok == (old(isOpen) && !old(writeFailed) && io.written == |data|)
      ensures file == if old(isOpen) && !old(writeFailed) then old(file) + data[..io.written] else old(file)
      ensures writeFailed == (old(writeFailed) || (old(isOpen) && io.written != |data|))
    {
      if !isOpen || writeFailed {
        return false;
      }
      file := file + data[..io.written];
      if io.written != |data| {
        writeFailed := true;
        return false;
      }
      ok := true;
    }

    /** Append, flush, and only then acknowledge. */
    method AppendRecord(limits: Limits, raw: Raw, io: Io) returns (ok: bool)
      requires io.written <= |RecordImage(JournalRecord(NextSequence(lastSequence), raw.kind, raw.payload))|
      modifies this
      ensures isOpen == old(isOpen)
      ensures var image := RecordImage(JournalRecord(NextSequence(old(lastSequence)), raw.kind, raw.payload));
              var accepts := old(isOpen) && !old(writeFailed) && |raw.payload| <= limits.maxJournalPayloadBytes;
              && ok == (accepts && io.written == |image| && io.flushed)
              && file == (if accepts then old(file) + image[..io.written] else old(file))
              && lastSequence == (if ok then NextSequence(old(lastSequence)) else old(lastSequence))
              && writeFailed == (old(writeFailed) || (accepts && !ok))
    {
      if !isOpen {
        return false;
      }
      if |raw.payload| > limits.maxJournalPayloadBytes {
        return false;
      }
      var next := NextSequence(lastSequence);
      var image := RecordImage(JournalRecord(next, raw.kind, raw.payload));
      ok := WriteAll(image, io);
      if !ok {
        return false;
      }
      if !io.flushed {
        writeFailed := true;
        return false;
      }
      lastSequence := next;
    }

    /** Recreate the file and carry the sequence over. The file may not reopen at all; its header may be cut short, or
        not be flushed. A journal whose last write failed refuses the header it has just made room for. */
    method Reset(store: StoreId, nowMs: int, io: Option<Io>) returns (ok: bool)
      requires io.Some? ==> io.value.written <= |HeaderImage(JournalHeader(store, nowMs, lastSequence))|
      modifies this
      ensures var image := HeaderImage(JournalHeader(store, nowMs, old(lastSequence)));
              && ok == (!old(writeFailed) && io.Some? && io.value.written == |image| && io.value.flushed)
              && file == (if io.None? then old(file) else if old(writeFailed) then [] else image[..io.value.written])
              && writeFailed == (old(writeFailed) || (io.Some? && io.value.written != |image|))
      ensures lastSequence == old(lastSequence) && isOpen == ok
    {
      var carry := lastSequence;
      isOpen := false;
      if io.None? {
        return false;
      }
      isOpen := true;
      file := [];
      var image := HeaderImage(JournalHeader(store, nowMs, carry));
      ok := WriteAll(image, io.value);
      assert [] + image[..io.value.written] == image[..io.value.written];
      if !ok {
        isOpen := false;
        return;
      }
      if !io.value.flushed {
        isOpen := false;
        return false;
      }
      lastSequence := carry;
    }
  }

  // ---------------------------------------------------------------- the store in place

  class Store {
    const limits: Limits
    const journal: Journal
    var snapshot: Option<seq<byte>>
    var state: Durable

    /** The protocol state this store is in. */
    ghost function View(): Machine
      reads this, journal
    {
      Machine(Disk(Some(journal.file), snapshot),
              Some(Process(state, journal.lastSequence, journal.writeFailed, journal.isOpen)))
    }

    ghost predicate Valid()
      reads this, journal
    {
      state.sequence == journal.lastSequence
    }

    /** A store over what opening the disk produced. */
    constructor (limits: Limits, disk: Disk, s: Durable)
      requires disk.journal.Some?
      ensures Valid() && fresh(journal) && this.limits == limits
      ensures View() == Machine(disk, Some(Process(s, s.sequence, false, true)))
    {
      this.limits := limits;
      journal := new Journal(disk.journal.value, s.sequence);
      snapshot, state := disk.snapshot, s;
    }

    /** Decode, validate, and change the tables; a payload that fails validation changes nothing. */
    method ApplyPayload(raw: Raw) returns (ok: bool)
      modifies this`state
      ensures ok == Decodes(limits, raw)
      ensures state == old(state).(tables := ApplyRaw(limits, old(state).tables, raw))
    {
      hide DecodeEntry;
      var entry := DecodeEntry(limits, raw.kind, raw.payload);
      if entry.None? {
        return false;
      }
      var t := state.tables;
      match entry.value {
        case IntentCommit(d) =>
          var generations := PopToBound(GetOr(t.generations, d.scope, []) + [d.generation],
                                        limits.maxObservationsPerScope);
          t := t.(generations := t.generations[d.scope := generations], intents := t.intents[d.scope := d]);
        case ObservationCommit(d) =>
          var stream := PopToBound(GetOr(t.observations, d.scope, []) + [d], limits.maxObservationsPerScope);
          t := t.(observations := t.observations[d.scope := stream]);
        case AttemptIssued(a) =>
          t := ApplyAttempt(t, a);
        case AttemptMoved(a) =>
          t := ApplyAttempt(t, a);
        case OutcomeCommit(o) =>
          var outcomes := PopToBound(t.outcomes + [o], limits.maxOutcomes);
          t := t.(outcomes := outcomes);
        case _ =>
          t := Apply(limits, t, entry.value);
      }
      state := state.(tables := t);
      ok := true;
    }

    method ApplyAttempt(t: Tables, a: Attempt) returns (t': Tables)
      ensures t' == AfterAttempt(limits, t, a)
    {
      hide TrimmedAttempts;
      var next := t.nextAttempt;
      if a.id >= next {
        next := (a.id + 1) % TWO64;
      }
      if next == 0 {
        next := 1;
      }
      var attempts := TrimAttempts(limits, t.attempts[a.id := a]);
      t' := t.(nextAttempt := next, attempts := attempts);
    }

    /** Durable first, memory second. Every outcome is a step of the protocol: a complete write is `Append`,
        a short write or a failed flush is `AppendFails`. */
    method AppendAndApply(raw: Raw, io: Io) returns (ok: bool)
      requires Valid()
      requires io.written <= |RecordImage(JournalRecord(NextSequence(journal.lastSequence), raw.kind, raw.payload))|
      modifies this`state, journal
      ensures Valid()
      ensures var image := RecordImage(JournalRecord(NextSequence(old(journal.lastSequence)), raw.kind, raw.payload));
              if io.written == |image| && io.flushed
              then View() == Step(limits, old(View()), Append(raw))
                   && ok == (CanAppend(limits, old(View()).process.value, raw) && Decodes(limits, raw))
              else View() == Step(limits, old(View()), AppendFails(raw, io.written)) && !ok
    {
      hide RecordImage, DecodeEntry, SnapshotOf, HeaderImage, ApplyRaw, Decodes, Created, OpenStore, DiskAfterOpen,
           Compacted, NextSequence;
      ghost var image := RecordImage(JournalRecord(NextSequence(journal.lastSequence), raw.kind, raw.payload));
      assert image[..|image|] == image;
      var appended := journal.AppendRecord(limits, raw, io);
      if !appended {
        return false;
      }
      state := state.(sequence := journal.lastSequence);
      ok := ApplyPayload(raw);
    }

    /** Publish a snapshot, then reset the journal. */
    method CompactStore(nowMs: int, io: Option<Io>) returns (ok: bool)
      requires Valid()
      requires io.Some? ==> io.value.written <= |HeaderImage(JournalHeader(state.store, nowMs, journal.lastSequence))|
      modifies this, journal
      ensures Valid()
      ensures var image := HeaderImage(JournalHeader(old(state.store), nowMs, old(journal.lastSequence)));
              if io.Some? && io.value.written == |image| && io.value.flushed
              then View() == Step(limits, old(View()), Compact(nowMs))
                   && ok == (SnapshotOf(old(View()).process.value, nowMs).Some? && !old(journal.writeFailed))
              else !ok && View() == Step(limits, old(View()),
                                         CompactFails(nowMs, if io.Some? then Some(io.value.written) else None))
    {
      hide SnapshotImage, EncodeSnapshot, HeaderImage, RecordImage, ApplyRaw, Created, OpenStore, DiskAfterOpen;
      ghost var image := HeaderImage(JournalHeader(state.store, nowMs, journal.lastSequence));
      assert image[..|image|] == image;
      var compactions := state.compactions + 1;
      var payload := EncodeSnapshot(state.tables, compactions);
      if payload.None? {
        return false;
      }
      var header := SnapshotHeader(state.store, state.sequence, state.tables.lastEpoch, nowMs);
      snapshot := Some(SnapshotImage(header, payload.value));
      ok := journal.Reset(state.store, nowMs, io);
      if ok {
        state := state.(compactions := compactions, sequence := journal.lastSequence);
      }
    }
  }
}
