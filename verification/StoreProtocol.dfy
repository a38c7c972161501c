/** The durable store as a protocol over bytes on disk: appends, snapshot publication,
    journal reset, failed writes, crashes at any byte, and reopening. */
module StoreProtocol {
  import opened Bytes
  import opened Model
  import opened Canonical
  import opened LineageCodec
  import opened JournalFormat
  import opened JournalScan
  import opened SnapshotFormat
  import opened SnapshotCodec
  import opened StoreState

  /** What survives the process: the two files. A staging file is never read. */
  datatype Disk = Disk(journal: Option<seq<byte>>, snapshot: Option<seq<byte>>)

  /** The durable state as the process holds it in memory. */
  datatype Durable = Durable(store: StoreId, sequence: nat, compactions: nat, tables: Tables)

  // ---------------------------------------------------------------- opening a store

  /** Apply every record above the watermark; one that does not decode refuses the store. */
  function Replay(limits: Limits, t: Tables, records: seq<JournalRecord>, watermark: nat): Option<Tables>
    decreases |records|
  {
    if records == [] then Some(t)
    else if records[0].sequence <= watermark then Replay(limits, t, records[1..], watermark)
    else
      var e := DecodeEntry(limits, records[0].kind, records[0].payload);
      if e.None? then None else Replay(limits, Apply(limits, t, e.value), records[1..], watermark)
  }

  function ReadSnapshotFile(limits: Limits, file: Option<seq<byte>>): Result<Option<Snapshot>> {
    if file.None? then Ok(None)
    else if |file.value| > limits.maxJournalBytes + SNAPSHOT_HEADER_BYTES
    then Refused(LimitExceeded, SNAPSHOT_DIGEST_MISMATCH)
    else
      var parsed := ParseSnapshot(file.value);
      if parsed.None? then Refused(IntegrityFailure, SNAPSHOT_DIGEST_MISMATCH) else Ok(parsed)
  }

  /** The state that a snapshot and a journal add up to. */
  function Rebuild(limits: Limits, snapshot: Option<Snapshot>, journal: JournalContents): Result<Durable> {
    var last := LastSequence(journal);
    if snapshot.None? then
      var tables := Replay(limits, EMPTY, journal.records, 0);
      if tables.None? then Refused(IntegrityFailure, JOURNAL_ENUM_INVALID)
      else Ok(Durable(journal.header.store, last, 0, tables.value))
    else
      var header := snapshot.value.header;
      if header.store != journal.header.store then Refused(IntegrityFailure, SNAPSHOT_STORE_MISMATCH)
      else if header.watermark > last then Refused(IntegrityFailure, SNAPSHOT_AHEAD_OF_JOURNAL)
      else
        var loaded := DecodeSnapshot(limits, snapshot.value.payload);
        if loaded.None? then Refused(IntegrityFailure, SNAPSHOT_DIGEST_MISMATCH)
        else
          var tables := Replay(limits, loaded.value.tables, journal.records, header.watermark);
          if tables.None? then Refused(IntegrityFailure, JOURNAL_ENUM_INVALID)
          else Ok(Durable(header.store, last, loaded.value.compactions, tables.value))
  }

  /** Opening a directory that holds a journal. */
  function OpenStore(limits: Limits, disk: Disk): Result<Durable>
    requires disk.journal.Some?
  {
    var snapshot := ReadSnapshotFile(limits, disk.snapshot);
    if snapshot.Refused? then Refused(snapshot.code, snapshot.reason) else
    var journal := ReadJournal(limits, disk.journal.value);
    if journal.Refused? then Refused(journal.code, journal.reason) else
    Rebuild(limits, snapshot.value, journal.value)
  }

  /** Opening cuts a torn tail off the journal, and touches nothing else. */
  function DiskAfterOpen(limits: Limits, disk: Disk): Disk
    requires disk.journal.Some?
  {
    var journal := ReadJournal(limits, disk.journal.value);
    if ReadSnapshotFile(limits, disk.snapshot).Refused? || journal.Refused? then disk
    else
      var content := disk.journal.value;
      if |journal.value.tail| <= |content| then disk.(journal := Some(content[..|content| - |journal.value.tail|]))
      else disk
  }

  // ---------------------------------------------------------------- the running process

  datatype Process = Process(state: Durable, lastSequence: nat, writeFailed: bool, journalOpen: bool)

  datatype Machine = Machine(disk: Disk, process: Option<Process>)

  datatype Event =
    | Open(newStore: StoreId, nowMs: int)
    | Append(raw: Raw)
    | AppendFails(raw: Raw, kept: nat)          // a short write or a failed flush; `kept` bytes reached the file
    | Compact(nowMs: int)
    | CompactFails(nowMs: int, written: Option<nat>) // published; the journal cannot be reopened, or its new header is
      // cut short or not flushed; the process goes on
    | Crash
    | CrashInCreate(newStore: StoreId, nowMs: int, kept: nat)
    | CrashInOpen                               // after the torn tail was cut off
    | CrashInAppend(raw: Raw, kept: nat)
    | CrashAfterSnapshot(nowMs: int)            // published, journal not reset yet
    | CrashInReset(nowMs: int, kept: nat)       // journal truncated, `kept` bytes of the new header written

  function NextRecord(p: Process, raw: Raw): JournalRecord {
    JournalRecord(NextSequence(p.lastSequence), raw.kind, raw.payload)
  }

  predicate CanAppend(limits: Limits, p: Process, raw: Raw) {
    p.journalOpen && !p.writeFailed && |raw.payload| <= limits.maxJournalPayloadBytes
  }

  function Prefix(s: seq<byte>, n: nat): seq<byte> {
    if n <= |s| then s[..n] else s
  }

  function JournalBytes(disk: Disk): seq<byte> {
    if disk.journal.Some? then disk.journal.value else []
  }

  /** The snapshot `Compact` publishes, if the state encodes at all. */
  function SnapshotOf(p: Process, nowMs: int): Option<seq<byte>> {
    var payload := EncodeSnapshot(p.state.tables, p.state.compactions + 1);
    if payload.None? then None
    else Some(SnapshotImage(SnapshotHeader(p.state.store, p.state.sequence, p.state.tables.lastEpoch, nowMs),
                            payload.value))
  }

  function AfterAppend(limits: Limits, p: Process, raw: Raw): Process {
    var next := NextSequence(p.lastSequence);
    p.(lastSequence := next,
       state := p.state.(sequence := next, tables := ApplyRaw(limits, p.state.tables, raw)))
  }

  function Created(limits: Limits, disk: Disk, newStore: StoreId, nowMs: int): Machine {
    var header := JournalHeader(newStore, nowMs, 0);
    var disk' := disk.(journal := Some(HeaderImage(header)));
    var snapshot := ReadSnapshotFile(limits, disk.snapshot);
    if snapshot.Refused? then Machine(disk, None) else
    var result := Rebuild(limits, snapshot.value, JournalContents(header, [], []));
    Machine(disk', if result.Ok? then Some(Process(result.value, result.value.sequence, false, true)) else None)
  }

  /** Reset after a published snapshot: truncate, then write the header that carries the sequence over.
      A journal whose last write failed refuses the header and stays empty. */
  function Compacted(p: Process, disk: Disk, image: seq<byte>, nowMs: int): Machine {
    if p.writeFailed then
      Machine(Disk(Some([]), Some(image)), Some(p.(journalOpen := false)))
    else
      Machine(Disk(Some(HeaderImage(JournalHeader(p.state.store, nowMs, p.lastSequence))), Some(image)),
              Some(p.(journalOpen := true,
                      state := p.state.(sequence := p.lastSequence, compactions := p.state.compactions + 1))))
  }

  predicate IsCompaction(e: Event) {
    e.Compact? || e.CompactFails? || e.CrashAfterSnapshot? || e.CrashInReset?
  }

  /** What a compaction leaves once its snapshot is published. */
  function Published(p: Process, disk: Disk, image: seq<byte>, e: Event): Machine
    requires IsCompaction(e)
  {
    var header := if p.writeFailed then [] else HeaderImage(JournalHeader(p.state.store, e.nowMs, p.lastSequence));
    match e
    case Compact(now) => Compacted(p, disk, image, now)
    case CompactFails(now, written) =>
      if written.None? then Machine(disk.(snapshot := Some(image)), Some(p.(journalOpen := false)))
      else
        Machine(Disk(Some(Prefix(header, written.value)), Some(image)),
                Some(p.(journalOpen := false, writeFailed := p.writeFailed || written.value < |header|)))
    case CrashAfterSnapshot(_) => Machine(disk.(snapshot := Some(image)), None)
    case CrashInReset(now, kept) => Machine(Disk(Some(Prefix(header, kept)), Some(image)), None)
  }

  /** A state that does not encode is not published, and nothing else happens. */
  function Compacting(m: Machine, p: Process, e: Event): Machine
    requires IsCompaction(e)
  {
    var image := SnapshotOf(p, e.nowMs);
    if image.Some? then Published(p, m.disk, image.value, e)
    else if e.Compact? || e.CompactFails? then m
    else m.(process := None)
  }

  function Step(limits: Limits, m: Machine, e: Event): Machine {
    match m.process
    case None => (
      match e
      case Open(store, now) =>
        if m.disk.journal.None? then Created(limits, m.disk, store, now)
        else
          var result := OpenStore(limits, m.disk);
          Machine(DiskAfterOpen(limits, m.disk),
                  if result.Ok? then Some(Process(result.value, result.value.sequence, false, true)) else None)
      case CrashInCreate(store, now, kept) =>
        if m.disk.journal.None?
        then Machine(m.disk.(journal := Some(Prefix(HeaderImage(JournalHeader(store, now, 0)), kept))), None)
        else m
      case CrashInOpen => if m.disk.journal.Some? then Machine(DiskAfterOpen(limits, m.disk), None) else m
      case _ => m)
    case Some(p) =>
      match e
      case Append(raw) =>
        if CanAppend(limits, p, raw)
        then Machine(m.disk.(journal := Some(JournalBytes(m.disk) + RecordImage(NextRecord(p, raw)))),
                     Some(AfterAppend(limits, p, raw)))
        else m
      case AppendFails(raw, kept) =>
        if CanAppend(limits, p, raw)
        then Machine(m.disk.(journal := Some(JournalBytes(m.disk) + Prefix(RecordImage(NextRecord(p, raw)), kept))),
                     Some(p.(writeFailed := true)))
        else m
      case Crash => m.(process := None)
      case CrashInAppend(raw, kept) =>
        if CanAppend(limits, p, raw)
        then Machine(m.disk.(journal := Some(JournalBytes(m.disk) + Prefix(RecordImage(NextRecord(p, raw)), kept))),
                     None)
        else m.(process := None)
      case _ => if IsCompaction(e) then Compacting(m, p, e) else m
  }

  // ---------------------------------------------------------------- runs and their logs

  /** A run: where the machine is, every record that became durable, in order, and every record that was
      acknowledged. */
  datatype Run = Run(machine: Machine, log: seq<Raw>, acked: seq<Raw>)

  const START: Run := Run(Machine(Disk(None, None), None), [], [])

  /** Whether all of an interrupted append reached the file. */
  predicate Landed(p: Process, raw: Raw, kept: nat) {
    kept >= |RecordImage(NextRecord(p, raw))|
  }

  function Advance(limits: Limits, r: Run, e: Event): Run {
    var m' := Step(limits, r.machine, e);
    if r.machine.process.None? then r.(machine := m') else
    var p := r.machine.process.value;
    match e
    case Append(raw) =>
      if CanAppend(limits, p, raw) then Run(m', r.log + [raw], r.acked + [raw]) else r.(machine := m')
    case AppendFails(raw, kept) =>
      if CanAppend(limits, p, raw) && Landed(p, raw, kept) then Run(m', r.log + [raw], r.acked) else r.(machine := m')
    case CrashInAppend(raw, kept) =>
      if CanAppend(limits, p, raw) && Landed(p, raw, kept) then Run(m', r.log + [raw], r.acked) else r.(machine := m')
    case _ => r.(machine := m')
  }

  function Execute(limits: Limits, events: seq<Event>): Run
    decreases |events|
  {
    if events == [] then START
    else Advance(limits, Execute(limits, events[..|events| - 1]), events[|events| - 1])
  }

  /** Events carry what the process hands to the store: known record types and clock readings. */
  predicate ValidEvent(e: Event) {
    match e
    case Open(_, now) => InI64(now)
    case Append(raw) => FIRST_RECORD_TYPE <= raw.kind <= LAST_RECORD_TYPE
    case AppendFails(raw, _) => FIRST_RECORD_TYPE <= raw.kind <= LAST_RECORD_TYPE
    case Compact(now) => InI64(now)
    case CompactFails(now, _) => InI64(now)
    case Crash => true
    case CrashInCreate(_, now, _) => InI64(now)
    case CrashInOpen => true
    case CrashInAppend(raw, _) => FIRST_RECORD_TYPE <= raw.kind <= LAST_RECORD_TYPE
    case CrashAfterSnapshot(now) => InI64(now)
    case CrashInReset(now, _) => InI64(now)
  }

  predicate ValidEvents(events: seq<Event>) {
    forall i :: 0 <= i < |events| ==> ValidEvent(events[i])
  }

  // ---------------------------------------------------------------- what the disk holds in every state

  predicate ValidLog(limits: Limits, log: seq<Raw>) {
    forall i :: 0 <= i < |log| ==>
      FIRST_RECORD_TYPE <= log[i].kind <= LAST_RECORD_TYPE && |log[i].payload| <= limits.maxJournalPayloadBytes
  }

  /** The journal records of a log, from position `base` on: record numbers start at one. */
  function RecordsFrom(log: seq<Raw>, base: nat): seq<JournalRecord>
    requires base <= |log|
    decreases |log| - base
  {
    if base == |log| then []
    else [JournalRecord(base + 1, log[base].kind, log[base].payload)] + RecordsFrom(log, base + 1)
  }

  lemma {:induction false} RecordsFromShape(limits: Limits, log: seq<Raw>, base: nat)
    requires base <= |log| < TWO64 - 1 && ValidLog(limits, log) && limits.maxJournalPayloadBytes < TWO32
    ensures |RecordsFrom(log, base)| == |log| - base
    ensures AllValidRecords(limits, RecordsFrom(log, base)) && Contiguous(RecordsFrom(log, base), base + 1)
    ensures base < |log| ==> RecordsFrom(log, base)[|log| - base - 1].sequence == |log|
    decreases |log| - base
  {
    if base < |log| {
      RecordsFromShape(limits, log, base + 1);
      assert RecordsFrom(log, base)[1..] == RecordsFrom(log, base + 1);
      assert NextSequence(base + 1) == base + 2;
    }
  }

  lemma {:induction false} RecordsFromAppend(log: seq<Raw>, raw: Raw, base: nat)
    requires base <= |log|
    ensures RecordsFrom(log + [raw], base) == RecordsFrom(log, base) + [JournalRecord(|log| + 1, raw.kind, raw.payload)]
    decreases |log| - base
  {
    if base == |log| {
      assert RecordsFrom(log + [raw], base + 1) == [];
    } else {
      RecordsFromAppend(log, raw, base + 1);
    }
  }

  ghost predicate JournalHolds(limits: Limits, content: seq<byte>, log: seq<Raw>, header: JournalHeader,
                               tail: seq<byte>) {
    && ValidHeader(header) && header.base <= |log| && TornAppend(limits, tail)
    && content == FileImage(header, RecordsFrom(log, header.base), tail)
  }

  /** The snapshot file holds the state after the first `w` records of the log. */
  ghost predicate SnapshotHolds(limits: Limits, image: seq<byte>, log: seq<Raw>, store: StoreId, w: nat, c: nat,
                                createdMs: int) {
    && w <= |log| && InU64(c) && InI64(createdMs)
    && var t := Fold(limits, EMPTY, log[..w]);
    EncodeSnapshot(t, c).Some?
    && image == SnapshotImage(SnapshotHeader(store, w, t.lastEpoch, createdMs), EncodeSnapshot(t, c).value)
  }

  /** The watermark is never ahead of the journal, and there is no gap above it: the journal starts at or below it. */
  ghost predicate DiskHolds(limits: Limits, disk: Disk, log: seq<Raw>, header: JournalHeader, tail: seq<byte>, n: nat) {
    && disk.journal.Some? && JournalHolds(limits, disk.journal.value, log, header, tail)
    && (disk.snapshot.None? ==> header.base == 0)
    && (disk.snapshot.Some? ==>
          exists w: nat, c: nat, at: int ::
            header.base <= w && c <= n && SnapshotHolds(limits, disk.snapshot.value, log, header.store, w, c, at))
  }

  ghost predicate MemoryHolds(limits: Limits, p: Process, log: seq<Raw>) {
    && p.lastSequence <= |log| <= p.lastSequence + 1
    && p.state.sequence == p.lastSequence
    && p.state.tables == Fold(limits, EMPTY, log[..p.lastSequence])
    && (!p.writeFailed ==> p.lastSequence == |log|)
  }

  ghost predicate ProcessHolds(limits: Limits, p: Process, log: seq<Raw>, header: JournalHeader, tail: seq<byte>,
                               n: nat) {
    && MemoryHolds(limits, p, log)
    && p.state.store == header.store && header.base <= p.lastSequence && p.state.compactions <= n
    && (!p.writeFailed ==> tail == [])
  }

  /** The journal was truncated and its header never made it: no process can open this store again. */
  ghost predicate HeaderLost(disk: Disk) {
    disk.journal.Some? && |disk.journal.value| < JOURNAL_HEADER_BYTES
  }

  ghost predicate Good(limits: Limits, r: Run, n: nat) {
    && |r.log| <= n && ValidLog(limits, r.log)
    && if r.machine.disk.journal.None? then r == START
       else if HeaderLost(r.machine.disk) then
         r.machine.process.Some? ==>
           var p := r.machine.process.value;
           MemoryHolds(limits, p, r.log) && p.writeFailed && !p.journalOpen && p.state.compactions <= n
       else
         exists header: JournalHeader, tail: seq<byte> :: Holds(limits, r, header, tail, n)
  }

  ghost predicate Holds(limits: Limits, r: Run, header: JournalHeader, tail: seq<byte>, n: nat) {
    && DiskHolds(limits, r.machine.disk, r.log, header, tail, n)
    && (r.machine.process.Some? ==> ProcessHolds(limits, r.machine.process.value, r.log, header, tail, n))
  }

  // ---------------------------------------------------------------- reopening what the disk holds

  predicate AllDecode(limits: Limits, log: seq<Raw>, from: nat) {
    forall i :: from <= i < |log| ==> Decodes(limits, log[i])
  }

  function Max(a: nat, b: nat): nat { if a >= b then a else b }

  lemma FoldOne(limits: Limits, log: seq<Raw>, i: nat)
    requires i < |log|
    ensures Fold(limits, EMPTY, log[..i + 1]) == ApplyRaw(limits, Fold(limits, EMPTY, log[..i]), log[i])
  {
    hide ApplyRaw;
    assert log[..i + 1] == log[..i] + [log[i]];
    FoldAppend(limits, EMPTY, log[..i], [log[i]]);
    var t := Fold(limits, EMPTY, log[..i]);
    assert Fold(limits, t, [log[i]]) == Fold(limits, ApplyRaw(limits, t, log[i]), [log[i]][1..]);
  }

  /** Replaying the records above the watermark onto the state at the watermark replays the whole log. */
  lemma {:induction false} ReplayIsFold(limits: Limits, log: seq<Raw>, from: nat, w: nat, t: Tables)
    requires from <= |log| && w <= |log| && t == Fold(limits, EMPTY, log[..Max(from, w)])
    ensures Replay(limits, t, RecordsFrom(log, from), w)
         == if AllDecode(limits, log, Max(from, w)) then Some(Fold(limits, EMPTY, log)) else None
    decreases |log| - from
  {
    hide DecodeEntry, Apply, Fold;
    if from == |log| {
      assert log[..Max(from, w)] == log;
    } else {
      var records := RecordsFrom(log, from);
      assert records[1..] == RecordsFrom(log, from + 1);
      if from + 1 <= w {
        ReplayIsFold(limits, log, from + 1, w, t);
      } else {
        FoldOne(limits, log, from);
        if DecodeEntry(limits, log[from].kind, log[from].payload).Some? {
          ReplayIsFold(limits, log, from + 1, w, ApplyRaw(limits, t, log[from]));
          assert AllDecode(limits, log, from) == AllDecode(limits, log, from + 1);
        } else {
          assert !Decodes(limits, log[from]);
        }
      }
    }
  }

  lemma ReadOfHeld(limits: Limits, content: seq<byte>, log: seq<Raw>, header: JournalHeader, tail: seq<byte>)
    requires JournalHolds(limits, content, log, header, tail) && ValidLog(limits, log)
    requires |log| < TWO64 - 1 && limits.maxJournalPayloadBytes < TWO32
    ensures |content| >= JOURNAL_HEADER_BYTES
    ensures var records := RecordsFrom(log, header.base);
            if |content| <= limits.maxJournalBytes
            then ReadJournal(limits, content) == Ok(JournalContents(header, records, tail))
                 && LastSequence(JournalContents(header, records, tail)) == |log|
            else ReadJournal(limits, content).Refused?
    ensures |tail| <= |content| && content[..|content| - |tail|] == FileImage(header, RecordsFrom(log, header.base), [])
  {
    hide HeaderImage, Images, RecordsFrom, ScanFrom, ValidHeader, ValidLog, AllValidRecords, Contiguous, TornAppend,
         ParseHeader;
    var records := RecordsFrom(log, header.base);
    RecordsFromShape(limits, log, header.base);
    ParseHeaderImage(header);
    NextBelow(header.base);
    if |content| <= limits.maxJournalBytes { ReadOfWritten(limits, header, records, tail); }
    assert Images(records) + [] == Images(records);
  }

  lemma NextBelow(n: nat)
    requires n + 1 < TWO64
    ensures NextSequence(n) == n + 1
  {
  }

  /** Whether this disk opens: nothing but sizes, the loader's table bounds and the decoders decide it. */
  ghost predicate Openable(limits: Limits, disk: Disk, log: seq<Raw>) {
    && disk.journal.Some? && !HeaderLost(disk)
    && |disk.journal.value| <= limits.maxJournalBytes
    && if disk.snapshot.None? then AllDecode(limits, log, 0)
       else
         && |disk.snapshot.value| <= limits.maxJournalBytes + SNAPSHOT_HEADER_BYTES
         && ParseSnapshot(disk.snapshot.value).Some?
         && var w := ParseSnapshot(disk.snapshot.value).value.header.watermark;
         w <= |log| && Loadable(limits, Fold(limits, EMPTY, log[..w])) && AllDecode(limits, log, w)
  }

  lemma SnapshotParses(limits: Limits, image: seq<byte>, log: seq<Raw>, store: StoreId, w: nat, c: nat, at: int)
    requires SnapshotHolds(limits, image, log, store, w, c, at) && |log| < TWO64
    ensures var t := Fold(limits, EMPTY, log[..w]);
            && ParseSnapshot(image)
               == Some(Snapshot(SnapshotHeader(store, w, t.lastEpoch, at), EncodeSnapshot(t, c).value))
            && DecodeSnapshot(limits, EncodeSnapshot(t, c).value)
               == (if Loadable(limits, t) then Some(Loaded(t, c)) else None)
  {
    hide Fold, SnapshotImage, ParseSnapshot, PutTables, DecodeSnapshot, Loadable, ValidIntents, ValidGenerationTable,
         ValidObservations, ValidAttempts, ValidOutcomes, ValidFences;
    var t := Fold(limits, EMPTY, log[..w]);
    EmptyTablesValid(limits);
    FoldValid(limits, EMPTY, log[..w]);
    LoadOfSave(limits, t, c);
    ParseSnapshotImage(SnapshotHeader(store, w, t.lastEpoch, at), EncodeSnapshot(t, c).value);
  }

  /** Reopening: refused exactly when the disk is not openable; otherwise the state is the fold of the whole log. */
  lemma ReopenIsFold(limits: Limits, disk: Disk, log: seq<Raw>, header: JournalHeader, tail: seq<byte>, n: nat)
    requires DiskHolds(limits, disk, log, header, tail, n) && ValidLog(limits, log)
    requires |log| < TWO64 - 1 && limits.maxJournalPayloadBytes < TWO32
    ensures OpenStore(limits, disk).Ok? <==> Openable(limits, disk, log)
    ensures OpenStore(limits, disk).Ok? ==>
              var s := OpenStore(limits, disk).value;
              s.tables == Fold(limits, EMPTY, log) && s.sequence == |log| && s.store == header.store
              && s.compactions <= n
    ensures DiskAfterOpen(limits, disk) == disk ||
            DiskAfterOpen(limits, disk) == disk.(journal := Some(FileImage(header, RecordsFrom(log, header.base), [])))
    ensures OpenStore(limits, disk).Ok? ==>
              DiskAfterOpen(limits, disk) == disk.(journal :=
              Some(FileImage(header, RecordsFrom(log, header.base), [])))
  {
    hide Fold, ReadJournal, ParseSnapshot, DecodeSnapshot, Loadable, RecordsFrom, FileImage, EncodeSnapshot,
         SnapshotImage, ValidHeader, TornAppend, AllDecode, LastSequence, ValidLog, Replay;
    var content := disk.journal.value;
    ReadOfHeld(limits, content, log, header, tail);
    if disk.snapshot.None? {
      NoPrefix(limits, log);
      ReplayIsFold(limits, log, header.base, 0, EMPTY);
    } else {
      var w: nat, c: nat, at: int :| header.base <= w && c <= n
                                     && SnapshotHolds(limits, disk.snapshot.value, log, header.store, w, c, at);
      SnapshotParses(limits, disk.snapshot.value, log, header.store, w, c, at);
      ReplayIsFold(limits, log, header.base, w, Fold(limits, EMPTY, log[..w]));
    }
  }

  lemma NoPrefix(limits: Limits, log: seq<Raw>)
    ensures Fold(limits, EMPTY, log[..0]) == EMPTY
  {
  }

  // ---------------------------------------------------------------- every event keeps the disk good

  predicate Bounded(limits: Limits, n: nat) {
    n < TWO64 - 2 && limits.maxJournalPayloadBytes < TWO32
  }

  lemma SnapshotHoldsLonger(limits: Limits, image: seq<byte>, log: seq<Raw>, raw: Raw, store: StoreId, w: nat, c: nat,
                            at: int)
    requires SnapshotHolds(limits, image, log, store, w, c, at)
    ensures SnapshotHolds(limits, image, log + [raw], store, w, c, at)
  {
    hide Fold, SnapshotImage, EncodeSnapshot;
    assert (log + [raw])[..w] == log[..w];
  }

  /** A complete image makes the log one record longer. */
  lemma DiskAfterAppend(limits: Limits, disk: Disk, log: seq<Raw>, raw: Raw, header: JournalHeader, n: nat)
    requires DiskHolds(limits, disk, log, header, [], n)
    ensures var image := RecordImage(JournalRecord(|log| + 1, raw.kind, raw.payload));
            DiskHolds(limits, disk.(journal := Some(disk.journal.value + image)), log + [raw], header, [], n + 1)
  {
    hide SnapshotHolds, RecordImage, HeaderImage, Images, ValidHeader, RecordsFrom;
    var records := RecordsFrom(log, header.base);
    var r := JournalRecord(|log| + 1, raw.kind, raw.payload);
    RecordsFromAppend(log, raw, header.base);
    ImagesAppend(records, r);
    var file := disk.journal.value + RecordImage(r);
    assert Images(records) + [] == Images(records);
    assert Images(records + [r]) + [] == Images(records) + RecordImage(r);
    Assoc(HeaderImage(header), Images(records), RecordImage(r));
    assert JournalHolds(limits, file, log + [raw], header, []);
    if disk.snapshot.Some? {
      var w: nat, c: nat, at: int :| header.base <= w && c <= n
                                     && SnapshotHolds(limits, disk.snapshot.value, log, header.store, w, c, at);
      SnapshotHoldsLonger(limits, disk.snapshot.value, log, raw, header.store, w, c, at);
      assert header.base <= w && c <= n + 1;
    }
  }

  /** Part of an image leaves the log as it was, with a torn tail behind it. */
  lemma DiskAfterTorn(limits: Limits, disk: Disk, log: seq<Raw>, r: JournalRecord, kept: nat, header: JournalHeader,
                      n: nat)
    requires DiskHolds(limits, disk, log, header, [], n) && ValidRecord(limits, r) && kept < |RecordImage(r)|
    ensures DiskHolds(limits, disk.(journal := Some(disk.journal.value + RecordImage(r)[..kept])), log, header,
                      RecordImage(r)[..kept], n + 1)
  {
    hide SnapshotHolds, RecordImage, HeaderImage, Images, ValidHeader, RecordsFrom, ValidRecord;
    var records := RecordsFrom(log, header.base);
    var tail := RecordImage(r)[..kept];
    assert Images(records) + [] == Images(records);
    Assoc(HeaderImage(header), Images(records), tail);
    if kept > 0 { assert TornImage(limits, tail, r, kept); }
    assert JournalHolds(limits, disk.journal.value + tail, log, header, tail);
    if disk.snapshot.Some? {
      var w: nat, c: nat, at: int :| header.base <= w && c <= n
                                     && SnapshotHolds(limits, disk.snapshot.value, log, header.store, w, c, at);
      assert header.base <= w && c <= n + 1;
    }
  }

  /** Publishing a snapshot of what the process holds. */
  lemma DiskAfterSnapshot(limits: Limits, m: Machine, log: seq<Raw>, header: JournalHeader, tail: seq<byte>, n: nat,
                          nowMs: int)
    requires DiskHolds(limits, m.disk, log, header, tail, n)
    requires m.process.Some? && ProcessHolds(limits, m.process.value, log, header, tail, n)
    requires InI64(nowMs) && n + 1 < TWO64 && SnapshotOf(m.process.value, nowMs).Some?
    ensures DiskHolds(limits, m.disk.(snapshot := SnapshotOf(m.process.value, nowMs)), log, header, tail, n + 1)
    ensures SnapshotHolds(limits, SnapshotOf(m.process.value, nowMs).value, log, header.store,
                          m.process.value.lastSequence, m.process.value.state.compactions + 1, nowMs)
  {
    hide Fold, SnapshotImage, EncodeSnapshot, JournalHolds;
    var p := m.process.value;
    var image := SnapshotOf(p, nowMs).value;
    assert SnapshotHolds(limits, image, log, header.store, p.lastSequence, p.state.compactions + 1, nowMs);
    assert header.base <= p.lastSequence && p.state.compactions + 1 <= n + 1;
  }

  /** A fresh journal that carries the sequence over from the snapshot. */
  lemma DiskAfterReset(limits: Limits, image: seq<byte>, log: seq<Raw>, store: StoreId, c: nat, at: int, nowMs: int,
                       n: nat)
    requires SnapshotHolds(limits, image, log, store, |log|, c, at) && c <= n && |log| < TWO64 && InI64(nowMs)
    ensures DiskHolds(limits, Disk(Some(HeaderImage(JournalHeader(store, nowMs, |log|))), Some(image)), log,
                      JournalHeader(store, nowMs, |log|), [], n)
  {
    hide SnapshotHolds, HeaderImage;
    var header := JournalHeader(store, nowMs, |log|);
    assert RecordsFrom(log, |log|) == [];
    assert Images([]) + [] == [];
    assert HeaderImage(header) + [] == HeaderImage(header);
    assert JournalHolds(limits, HeaderImage(header), log, header, []);
    assert header.base <= |log| && c <= n;
  }

  lemma MemoryAfterAppend(limits: Limits, p: Process, log: seq<Raw>, raw: Raw)
    requires MemoryHolds(limits, p, log) && !p.writeFailed && |log| + 1 < TWO64
    ensures MemoryHolds(limits, AfterAppend(limits, p, raw), log + [raw])
    ensures AfterAppend(limits, p, raw).lastSequence == |log| + 1
  {
    hide ApplyRaw, Fold;
    NextBelow(p.lastSequence);
    var log' := log + [raw];
    FoldOne(limits, log', |log|);
    assert log'[..|log|] == log && log'[..|log| + 1] == log' && log[..|log|] == log;
  }

  lemma MemoryAfterLanded(limits: Limits, p: Process, log: seq<Raw>, raw: Raw)
    requires MemoryHolds(limits, p, log) && !p.writeFailed
    ensures MemoryHolds(limits, p.(writeFailed := true), log + [raw])
  {
    hide Fold;
    assert (log + [raw])[..p.lastSequence] == log[..p.lastSequence];
  }

  lemma ValidLogAppend(limits: Limits, log: seq<Raw>, raw: Raw)
    requires ValidLog(limits, log) && FIRST_RECORD_TYPE <= raw.kind <= LAST_RECORD_TYPE
    requires |raw.payload| <= limits.maxJournalPayloadBytes
    ensures ValidLog(limits, log + [raw])
  {
  }

  lemma HeldIsLong(limits: Limits, r: Run, header: JournalHeader, tail: seq<byte>, n: nat)
    requires Holds(limits, r, header, tail, n)
    ensures !HeaderLost(r.machine.disk)
  {
    hide SnapshotHolds, HeaderImage, Images, TornAppend, RecordsFrom, ValidHeader, MemoryHolds;
    ParseHeaderImage(header);
  }

  lemma GoodFromHolds(limits: Limits, r: Run, header: JournalHeader, tail: seq<byte>, n: nat)
    requires Holds(limits, r, header, tail, n) && |r.log| <= n && ValidLog(limits, r.log)
    ensures Good(limits, r, n)
  {
    hide Holds, ValidLog, HeaderLost;
    HeldIsLong(limits, r, header, tail, n);
    HeldHasJournal(limits, r, header, tail, n);
  }

  lemma HeldHasJournal(limits: Limits, r: Run, header: JournalHeader, tail: seq<byte>, n: nat)
    requires Holds(limits, r, header, tail, n)
    ensures r.machine.disk.journal.Some?
  {
    hide JournalHolds, SnapshotHolds, ProcessHolds;
  }

  lemma NextRecordIs(limits: Limits, p: Process, log: seq<Raw>, raw: Raw)
    requires MemoryHolds(limits, p, log) && !p.writeFailed && |log| + 1 < TWO64 && CanAppend(limits, p, raw)
    requires FIRST_RECORD_TYPE <= raw.kind <= LAST_RECORD_TYPE && limits.maxJournalPayloadBytes < TWO32
    ensures NextRecord(p, raw) == JournalRecord(|log| + 1, raw.kind, raw.payload)
    ensures ValidRecord(limits, NextRecord(p, raw))
  {
    hide Fold;
    NextBelow(p.lastSequence);
  }

  /** Append, whole or interrupted, while the journal is open. */
  lemma AppendKeepsGood(limits: Limits, r: Run, raw: Raw, e: Event, header: JournalHeader, tail: seq<byte>, n: nat)
    requires Holds(limits, r, header, tail, n) && |r.log| <= n && ValidLog(limits, r.log) && Bounded(limits, n)
    requires r.machine.process.Some? && CanAppend(limits, r.machine.process.value, raw) && ValidEvent(e)
    requires e == Append(raw) || (e.AppendFails? && e.raw == raw) || (e.CrashInAppend? && e.raw == raw)
    ensures Good(limits, Advance(limits, r, e), n + 1)
  {
    hide RecordImage, JournalHolds, SnapshotHolds, Fold, ApplyRaw, RecordsFrom, HeaderImage, ValidLog, Good, Created,
         OpenStore, DiskAfterOpen, Compacted, SnapshotOf;
    var p := r.machine.process.value;
    var image := RecordImage(NextRecord(p, raw));
    var r' := Advance(limits, r, e);
    assert tail == [];
    NextRecordIs(limits, p, r.log, raw);
    ValidLogAppend(limits, r.log, raw);
    if e.Append? || Landed(p, raw, e.kept) {
      DiskAfterAppend(limits, r.machine.disk, r.log, raw, header, n);
      MemoryAfterAppend(limits, p, r.log, raw);
      MemoryAfterLanded(limits, p, r.log, raw);
      assert e.Append? || Prefix(image, e.kept) == image;
      assert r'.machine.process.Some? ==> ProcessHolds(limits, r'.machine.process.value, r'.log, header, [], n + 1);
      assert Holds(limits, r', header, [], n + 1);
      GoodFromHolds(limits, r', header, [], n + 1);
    } else {
      DiskAfterTorn(limits, r.machine.disk, r.log, NextRecord(p, raw), e.kept, header, n);
      assert Holds(limits, r', header, image[..e.kept], n + 1);
      GoodFromHolds(limits, r', header, image[..e.kept], n + 1);
    }
  }

  lemma CompactionStep(limits: Limits, r: Run, e: Event)
    requires IsCompaction(e) && r.machine.process.Some?
    ensures Advance(limits, r, e) == r.(machine := Compacting(r.machine, r.machine.process.value, e))
  {
    hide Compacting, RecordImage, HeaderImage, OpenStore, DiskAfterOpen, Created, AfterAppend;
  }

  /** Publication and reset, whole or interrupted, from a good disk. */
  lemma CompactKeepsGood(limits: Limits, r: Run, e: Event, header: JournalHeader, tail: seq<byte>, n: nat)
    requires Holds(limits, r, header, tail, n) && |r.log| <= n && ValidLog(limits, r.log) && Bounded(limits, n)
    requires r.machine.process.Some? && IsCompaction(e) && ValidEvent(e)
    requires SnapshotOf(r.machine.process.value, e.nowMs).Some?
    ensures Good(limits, Advance(limits, r, e), n + 1)
  {
    hide Advance, DiskHolds, MemoryHolds, HeaderImage, ValidLog, SnapshotOf;
    var p := r.machine.process.value;
    var image := SnapshotOf(p, e.nowMs).value;
    CompactionStep(limits, r, e);
    if e.CrashAfterSnapshot? || (e.CompactFails? && e.written.None?) {
      OnlyPublished(limits, r, e, header, tail, n);
    } else if p.writeFailed || !WholeHeader(e) {
      HeaderCut(limits, r, e, header, tail, n);
    } else {
      ResetKeepsGood(limits, r, e, header, tail, n);
    }
  }

  /** The snapshot is out, and the journal as it was. */
  lemma OnlyPublished(limits: Limits, r: Run, e: Event, header: JournalHeader, tail: seq<byte>, n: nat)
    requires Holds(limits, r, header, tail, n) && |r.log| <= n && ValidLog(limits, r.log) && Bounded(limits, n)
    requires r.machine.process.Some? && (e.CrashAfterSnapshot? || (e.CompactFails? && e.written.None?)) && ValidEvent(e)
    requires SnapshotOf(r.machine.process.value, e.nowMs).Some?
    ensures Good(limits, r.(machine := Compacting(r.machine, r.machine.process.value, e)), n + 1)
  {
    hide JournalHolds, SnapshotHolds, Fold, RecordsFrom, HeaderImage, ValidLog, SnapshotOf, Good, DiskHolds;
    var r' := r.(machine := Compacting(r.machine, r.machine.process.value, e));
    DiskAfterSnapshot(limits, r.machine, r.log, header, tail, n, e.nowMs);
    assert Holds(limits, r', header, tail, n + 1);
    GoodFromHolds(limits, r', header, tail, n + 1);
  }

  /** The new header reached the file. */
  predicate WholeHeader(e: Event) {
    || e.Compact? || (e.CompactFails? && e.written.Some? && e.written.value >= JOURNAL_HEADER_BYTES)
    || (e.CrashInReset? && e.kept >= JOURNAL_HEADER_BYTES)
  }

  /** The journal was emptied, and its new header refused or cut short. */
  lemma HeaderCut(limits: Limits, r: Run, e: Event, header: JournalHeader, tail: seq<byte>, n: nat)
    requires Holds(limits, r, header, tail, n) && |r.log| <= n && ValidLog(limits, r.log)
    requires e.Compact? || e.CrashInReset? || (e.CompactFails? && e.written.Some?)
    requires r.machine.process.Some? && SnapshotOf(r.machine.process.value, e.nowMs).Some?
    requires r.machine.process.value.writeFailed || !WholeHeader(e)
    ensures Good(limits, r.(machine := Compacting(r.machine, r.machine.process.value, e)), n + 1)
  {
    hide DiskHolds, HeaderImage, ValidLog, SnapshotOf, Fold;
    var p := r.machine.process.value;
    HeaderSize(JournalHeader(p.state.store, e.nowMs, p.lastSequence));
  }

  lemma HeaderSize(h: JournalHeader)
    ensures |HeaderImage(h)| == JOURNAL_HEADER_BYTES
  {
    hide HeaderFields;
    HeaderFieldsShape(h, HeaderDigest(h));
  }

  lemma ResetKeepsGood(limits: Limits, r: Run, e: Event, header: JournalHeader, tail: seq<byte>, n: nat)
    requires Holds(limits, r, header, tail, n) && |r.log| <= n && ValidLog(limits, r.log) && Bounded(limits, n)
    requires r.machine.process.Some? && !r.machine.process.value.writeFailed && WholeHeader(e) && ValidEvent(e)
    requires SnapshotOf(r.machine.process.value, e.nowMs).Some?
    ensures Good(limits, r.(machine := Compacting(r.machine, r.machine.process.value, e)), n + 1)
  {
    hide JournalHolds, SnapshotHolds, Fold, RecordsFrom, HeaderImage, ValidLog, SnapshotOf, Good, DiskHolds, Step;
    var p := r.machine.process.value;
    var image := SnapshotOf(p, e.nowMs).value;
    var r' := r.(machine := Compacting(r.machine, p, e));
    var header' := JournalHeader(p.state.store, e.nowMs, p.lastSequence);
    DiskAfterSnapshot(limits, r.machine, r.log, header, tail, n, e.nowMs);
    HeaderSize(header');
    DiskAfterReset(limits, image, r.log, header.store, p.state.compactions + 1, e.nowMs, e.nowMs, n + 1);
    assert e.CrashInReset? ==> Prefix(HeaderImage(header'), e.kept) == HeaderImage(header');
    assert e.CompactFails? ==> Prefix(HeaderImage(header'), e.written.value) == HeaderImage(header');
    assert r'.machine.disk == Disk(Some(HeaderImage(header')), Some(image));
    assert r'.machine.process.Some? ==> ProcessHolds(limits, r'.machine.process.value, r.log, header', [], n + 1);
    GoodFromHolds(limits, r', header', [], n + 1);
  }

  lemma DiskHoldsLater(limits: Limits, disk: Disk, log: seq<Raw>, header: JournalHeader, tail: seq<byte>, n: nat)
    requires DiskHolds(limits, disk, log, header, tail, n)
    ensures DiskHolds(limits, disk, log, header, tail, n + 1)
  {
    hide JournalHolds, SnapshotHolds;
    if disk.snapshot.Some? {
      var w: nat, c: nat, at: int :| header.base <= w && c <= n
                                     && SnapshotHolds(limits, disk.snapshot.value, log, header.store, w, c, at);
      assert header.base <= w && c <= n + 1;
    }
  }

  /** Cutting the torn tail off. */
  lemma DiskAfterCut(limits: Limits, disk: Disk, log: seq<Raw>, header: JournalHeader, tail: seq<byte>, n: nat)
    requires DiskHolds(limits, disk, log, header, tail, n)
    ensures DiskHolds(limits, disk.(journal := Some(FileImage(header, RecordsFrom(log, header.base), []))), log, header,
                      [], n + 1)
  {
    hide SnapshotHolds, FileImage, RecordsFrom, ValidHeader;
    DiskHoldsLater(limits, disk, log, header, tail, n);
  }

  lemma OpenKeepsGood(limits: Limits, r: Run, e: Event, header: JournalHeader, tail: seq<byte>, n: nat)
    requires Holds(limits, r, header, tail, n) && |r.log| <= n && ValidLog(limits, r.log) && Bounded(limits, n)
    requires r.machine.process.None? && (e.Open? || e.CrashInOpen?)
    ensures Good(limits, Advance(limits, r, e), n + 1)
  {
    hide JournalHolds, SnapshotHolds, Fold, RecordsFrom, FileImage, ValidLog, OpenStore, DiskAfterOpen, Openable, Good;
    var disk := r.machine.disk;
    var r' := Advance(limits, r, e);
    ReopenIsFold(limits, disk, r.log, header, tail, n);
    DiskAfterCut(limits, disk, r.log, header, tail, n);
    DiskHoldsLater(limits, disk, r.log, header, tail, n);
    assert r.log[..|r.log|] == r.log;
    BaseBelow(limits, disk, r.log, header, tail, n);
    if DiskAfterOpen(limits, disk) == disk && r'.machine.process.None? {
      assert Holds(limits, r', header, tail, n + 1);
      GoodFromHolds(limits, r', header, tail, n + 1);
    } else {
      assert Holds(limits, r', header, [], n + 1);
      GoodFromHolds(limits, r', header, [], n + 1);
    }
  }

  lemma BaseBelow(limits: Limits, disk: Disk, log: seq<Raw>, header: JournalHeader, tail: seq<byte>, n: nat)
    requires DiskHolds(limits, disk, log, header, tail, n)
    ensures header.base <= |log|
  {
    hide SnapshotHolds, FileImage, RecordsFrom;
  }

  /** The first open creates the journal. */
  lemma CreateKeepsGood(limits: Limits, e: Event, n: nat)
    requires ValidEvent(e) && (e.Open? || e.CrashInCreate?) && Bounded(limits, n)
    ensures Good(limits, Advance(limits, START, e), n + 1)
  {
    hide HeaderImage, Fold, DecodeEntry, DecodeSnapshot, OpenStore, DiskAfterOpen, ApplyRaw, ParseSnapshot, ParseHeader,
         ValidHeader, EncodeSnapshot, SnapshotOf, Compacted, RecordImage;
    var header := JournalHeader(e.newStore, e.nowMs, 0);
    var r' := Advance(limits, START, e);
    HeaderInRange(header);
    ParseHeaderImage(header);
    assert RecordsFrom([], 0) == [] && Images([]) + [] == [] && HeaderImage(header) + [] == HeaderImage(header);
    if e.Open? || e.kept >= JOURNAL_HEADER_BYTES {
      NoPrefix(limits, []);
      assert JournalHolds(limits, HeaderImage(header), [], header, []);
      assert Prefix(HeaderImage(header), JOURNAL_HEADER_BYTES) == HeaderImage(header);
      assert Holds(limits, r', header, [], n + 1);
      GoodFromHolds(limits, r', header, [], n + 1);
    }
  }

  lemma HeaderInRange(h: JournalHeader)
    requires InI64(h.createdMs) && h.base < TWO64
    ensures ValidHeader(h)
  {
  }

  /** Once the header is lost, it stays lost, and no record can be committed any more. */
  lemma LostStaysGood(limits: Limits, r: Run, e: Event, n: nat)
    requires Good(limits, r, n) && HeaderLost(r.machine.disk) && ValidEvent(e) && Bounded(limits, n)
    ensures Good(limits, Advance(limits, r, e), n + 1)
    ensures HeaderLost(Advance(limits, r, e).machine.disk) && Advance(limits, r, e).log == r.log
  {
    hide Advance, Good, ValidEvent;
    if r.machine.process.None? { LostWhileDown(limits, r, e, n); } else { LostWhileUp(limits, r, e, n); }
  }

  lemma LostWhileDown(limits: Limits, r: Run, e: Event, n: nat)
    requires Good(limits, r, n) && HeaderLost(r.machine.disk) && r.machine.process.None?
    ensures Good(limits, Advance(limits, r, e), n + 1)
    ensures HeaderLost(Advance(limits, r, e).machine.disk) && Advance(limits, r, e).log == r.log
  {
    hide Created, OpenStore, ReadSnapshotFile, ScanFrom, ParseHeader, Holds, ValidLog, MemoryHolds;
    LostRefuses(limits, r.machine.disk, r.log);
  }

  lemma LostWhileUp(limits: Limits, r: Run, e: Event, n: nat)
    requires Good(limits, r, n) && HeaderLost(r.machine.disk) && r.machine.process.Some?
    ensures Good(limits, Advance(limits, r, e), n + 1)
    ensures HeaderLost(Advance(limits, r, e).machine.disk) && Advance(limits, r, e).log == r.log
  {
    hide SnapshotOf, HeaderImage, RecordImage, OpenStore, DiskAfterOpen, Created, Holds, ValidLog, Fold;
  }

  lemma CrashKeepsGood(limits: Limits, r: Run, r': Run, header: JournalHeader, tail: seq<byte>, n: nat)
    requires Holds(limits, r, header, tail, n) && |r.log| <= n && ValidLog(limits, r.log)
    requires r' == r || r' == r.(machine := r.machine.(process := None))
    ensures Good(limits, r', n + 1)
  {
    hide JournalHolds, SnapshotHolds, Fold, ValidLog, Good;
    DiskHoldsLater(limits, r.machine.disk, r.log, header, tail, n);
    assert Holds(limits, r', header, tail, n + 1);
    GoodFromHolds(limits, r', header, tail, n + 1);
  }

  lemma AdvanceKeepsGood(limits: Limits, r: Run, e: Event, n: nat)
    requires Good(limits, r, n) && ValidEvent(e) && Bounded(limits, n)
    ensures Good(limits, Advance(limits, r, e), n + 1)
  {
    hide Holds, SnapshotOf, RecordImage, HeaderImage, OpenStore, DiskAfterOpen, Created, Compacted, AfterAppend,
         ValidLog, MemoryHolds;
    if r.machine.disk.journal.None? {
      if e.Open? || e.CrashInCreate? { CreateKeepsGood(limits, e, n); } else { StartStaysGood(limits, e, n); }
    } else if HeaderLost(r.machine.disk) {
      LostStaysGood(limits, r, e, n);
    } else {
      var header: JournalHeader, tail: seq<byte> :| Holds(limits, r, header, tail, n);
      HeldStaysGood(limits, r, e, header, tail, n);
    }
  }

  lemma StartStaysGood(limits: Limits, e: Event, n: nat)
    requires !e.Open? && !e.CrashInCreate?
    ensures Good(limits, Advance(limits, START, e), n + 1)
  {
    hide Holds, HeaderImage, OpenStore, DiskAfterOpen;
  }

  lemma HeldStaysGood(limits: Limits, r: Run, e: Event, header: JournalHeader, tail: seq<byte>, n: nat)
    requires Holds(limits, r, header, tail, n) && |r.log| <= n && ValidLog(limits, r.log)
    requires ValidEvent(e) && Bounded(limits, n)
    ensures Good(limits, Advance(limits, r, e), n + 1)
  {
    hide Holds, Good, SnapshotOf, RecordImage, HeaderImage, OpenStore, DiskAfterOpen, Created, Compacted, AfterAppend,
         ValidLog;
    HeldHasJournal(limits, r, header, tail, n);
    var r' := Advance(limits, r, e);
    if r.machine.process.None? {
      if e.Open? || e.CrashInOpen? {
        OpenKeepsGood(limits, r, e, header, tail, n);
      } else {
        CrashKeepsGood(limits, r, r', header, tail, n);
      }
    } else {
      var p := r.machine.process.value;
      if IsCompaction(e) {
        CompactionStep(limits, r, e);
        if SnapshotOf(p, e.nowMs).Some? { CompactKeepsGood(limits, r, e, header, tail, n); }
        else { CrashKeepsGood(limits, r, r', header, tail, n); }
        return;
      }
      match e {
        case Append(raw) =>
          if CanAppend(limits, p, raw) { AppendKeepsGood(limits, r, raw, e, header, tail, n); }
          else { CrashKeepsGood(limits, r, r', header, tail, n); }
        case AppendFails(raw, _) =>
          if CanAppend(limits, p, raw) { AppendKeepsGood(limits, r, raw, e, header, tail, n); }
          else { CrashKeepsGood(limits, r, r', header, tail, n); }
        case CrashInAppend(raw, _) =>
          if CanAppend(limits, p, raw) { AppendKeepsGood(limits, r, raw, e, header, tail, n); }
          else { CrashKeepsGood(limits, r, r', header, tail, n); }
        case _ => CrashKeepsGood(limits, r, r', header, tail, n);
      }
    }
  }

  lemma {:induction false} ExecuteIsGood(limits: Limits, events: seq<Event>)
    requires ValidEvents(events) && |events| < TWO64 - 2 && limits.maxJournalPayloadBytes < TWO32
    ensures Good(limits, Execute(limits, events), |events|)
    decreases |events|
  {
    hide Advance, Good, ValidEvent;
    if events == [] {
      StartGood(limits);
    } else {
      var front := events[..|events| - 1];
      assert forall i :: 0 <= i < |front| ==> front[i] == events[i];
      ExecuteIsGood(limits, front);
      AdvanceKeepsGood(limits, Execute(limits, front), events[|events| - 1], |front|);
    }
  }

  lemma StartGood(limits: Limits)
    ensures Good(limits, START, 0)
  {
    hide Holds;
  }

  // ---------------------------------------------------------------- the theorems

  /** Crash refinement. After any run of appends, failed writes, compactions, crashes and reopens:
      a process whose journal is healthy holds exactly the fold of the durable log; a reopen succeeds
      exactly on an openable disk, and then holds exactly the fold of the durable log. */
  lemma CrashRefinement(limits: Limits, events: seq<Event>)
    requires ValidEvents(events) && |events| < TWO64 - 2 && limits.maxJournalPayloadBytes < TWO32
    ensures var r := Execute(limits, events);
            r.machine.process.Some? && !r.machine.process.value.writeFailed ==>
              r.machine.process.value.state.tables == Fold(limits, EMPTY, r.log)
              && r.machine.process.value.state.sequence == |r.log|
    ensures var r := Execute(limits, events);
            r.machine.disk.journal.Some? ==>
              (OpenStore(limits, r.machine.disk).Ok? <==> Openable(limits, r.machine.disk, r.log))
              && (OpenStore(limits, r.machine.disk).Ok? ==>
                    OpenStore(limits, r.machine.disk).value.tables == Fold(limits, EMPTY, r.log)
                    && OpenStore(limits, r.machine.disk).value.sequence == |r.log|)
  {
    hide Execute, Holds, OpenStore, Openable, Fold, ValidLog, ValidEvents;
    var r := Execute(limits, events);
    ExecuteIsGood(limits, events);
    if r.machine.disk.journal.Some? {
      if HeaderLost(r.machine.disk) {
        LostRefuses(limits, r.machine.disk, r.log);
      } else {
        var header: JournalHeader, tail: seq<byte> :| Holds(limits, r, header, tail, |events|);
        HeldReopens(limits, r, header, tail, |events|);
      }
    }
  }

  lemma HeldReopens(limits: Limits, r: Run, header: JournalHeader, tail: seq<byte>, n: nat)
    requires Holds(limits, r, header, tail, n) && ValidLog(limits, r.log) && |r.log| <= n && Bounded(limits, n)
    ensures r.machine.disk.journal.Some?
    ensures r.machine.process.Some? && !r.machine.process.value.writeFailed ==>
              r.machine.process.value.state.tables == Fold(limits, EMPTY, r.log)
              && r.machine.process.value.state.sequence == |r.log|
    ensures OpenStore(limits, r.machine.disk).Ok? <==> Openable(limits, r.machine.disk, r.log)
    ensures OpenStore(limits, r.machine.disk).Ok? ==>
              OpenStore(limits, r.machine.disk).value.tables == Fold(limits, EMPTY, r.log)
              && OpenStore(limits, r.machine.disk).value.sequence == |r.log|
  {
    hide OpenStore, Openable, Fold, ValidLog, JournalHolds, SnapshotHolds;
    assert r.log[..|r.log|] == r.log;
    ReopenIsFold(limits, r.machine.disk, r.log, header, tail, n);
  }

  lemma LostRefuses(limits: Limits, disk: Disk, log: seq<Raw>)
    requires HeaderLost(disk)
    ensures OpenStore(limits, disk).Refused? && !Openable(limits, disk, log)
  {
    hide ReadSnapshotFile, Rebuild, ScanFrom, ParseHeader, Loadable, ParseSnapshot, AllDecode, Fold;
  }

  // ---------------------------------------------------------------- acknowledged records

  function Kept(log: seq<Raw>, flags: seq<bool>): seq<Raw>
    requires |flags| == |log|
  {
    if log == [] then []
    else Kept(log[..|log| - 1], flags[..|log| - 1]) + (if flags[|log| - 1] then [log[|log| - 1]] else [])
  }

  function CountFalse(flags: seq<bool>): nat {
    if flags == [] then 0 else CountFalse(flags[..|flags| - 1]) + (if flags[|flags| - 1] then 0 else 1)
  }

  /** The events that can leave an unacknowledged record on disk. */
  function Interruptions(events: seq<Event>): nat {
    if events == [] then 0
    else
      var e := events[|events| - 1];
      Interruptions(events[..|events| - 1]) + (if e.AppendFails? || e.CrashInAppend? then 1 else 0)
  }

  /** `acked` is `log` without `n` of its records. */
  ghost predicate AllBut(acked: seq<Raw>, log: seq<Raw>, n: nat) {
    exists flags: seq<bool> :: |flags| == |log| && Kept(log, flags) == acked && CountFalse(flags) == n
  }

  /** The log is the acknowledged records, in order, and at most `bound` records more. */
  ghost predicate NoneLost(r: Run, bound: nat) {
    exists n: nat :: n <= bound && AllBut(r.acked, r.log, n)
  }

  lemma AllButAppend(acked: seq<Raw>, log: seq<Raw>, n: nat, raw: Raw, kept: bool)
    requires AllBut(acked, log, n)
    ensures AllBut(if kept then acked + [raw] else acked, log + [raw], if kept then n else n + 1)
  {
    var flags: seq<bool> :| |flags| == |log| && Kept(log, flags) == acked && CountFalse(flags) == n;
    var flags', log' := flags + [kept], log + [raw];
    assert log'[..|log|] == log && flags'[..|log|] == flags;
    assert Kept(log', flags') == if kept then acked + [raw] else acked;
  }

  /** Every acknowledged record is in the durable log, in order, and at most one record more per
      interrupted append: no acknowledged mutation is ever lost and none is invented. */
  lemma {:induction false} AcknowledgedIsDurable(limits: Limits, events: seq<Event>)
    ensures NoneLost(Execute(limits, events), Interruptions(events))
    decreases |events|
  {
    hide Step, AllBut, Landed, CanAppend;
    if events == [] {
      NothingAcknowledged();
    } else {
      var front, e := events[..|events| - 1], events[|events| - 1];
      AcknowledgedIsDurable(limits, front);
      var r := Execute(limits, front);
      var n: nat :| n <= Interruptions(front) && AllBut(r.acked, r.log, n);
      if r.machine.process.Some? && (e.Append? || e.AppendFails? || e.CrashInAppend?) {
        AllButAppend(r.acked, r.log, n, e.raw, e.Append?);
      }
      var r' := Execute(limits, events);
      var n' := if r'.log == r.log || e.Append? then n else n + 1;
      assert n' <= Interruptions(events) && AllBut(r'.acked, r'.log, n');
      assert NoneLost(r', Interruptions(events));
    }
  }

  lemma NothingAcknowledged()
    ensures AllBut([], [], 0)
  {
    assert Kept([], []) == [] && CountFalse([]) == 0;
  }

  // ---------------------------------------------------------------- snapshot and replay commute

  /** For every log and cut point: loading the snapshot taken at the cut and replaying only the records above
      its watermark, from a journal that starts anywhere at or below the cut, equals replaying the whole log. */
  lemma SnapshotReplayCommutes(limits: Limits, log: seq<Raw>, base: nat, cut: nat, compactions: nat)
    requires base <= cut <= |log| && InU64(compactions)
    requires EncodeSnapshot(Fold(limits, EMPTY, log[..cut]), compactions).Some?
    requires Loadable(limits, Fold(limits, EMPTY, log[..cut])) && AllDecode(limits, log, cut)
    ensures var loaded := DecodeSnapshot(limits, EncodeSnapshot(Fold(limits, EMPTY, log[..cut]), compactions).value);
            loaded.Some? && loaded.value.compactions == compactions
            && Replay(limits, loaded.value.tables, RecordsFrom(log, base), cut) == Some(Fold(limits, EMPTY, log))
  {
    hide Fold, PutTables, DecodeSnapshot, Loadable, AllDecode, Replay, RecordsFrom, ValidTables;
    var t := Fold(limits, EMPTY, log[..cut]);
    EmptyTablesValid(limits);
    FoldValid(limits, EMPTY, log[..cut]);
    LoadOfSave(limits, t, compactions);
    ReplayIsFold(limits, log, base, cut, t);
  }

  // ---------------------------------------------------------------- a failed write and a compaction

  /** A compaction that gets as far as the journal leaves it without a header exactly when the journal's last write had
      failed, so that the reset empties the file and refuses the header, or the header itself is cut short. */
  lemma CompactLosesHeader(limits: Limits, m: Machine, e: Event)
    requires e.Compact? || e.CrashInReset? || (e.CompactFails? && e.written.Some?)
    requires m.process.Some? && SnapshotOf(m.process.value, e.nowMs).Some?
    ensures HeaderLost(Step(limits, m, e).disk) <==> m.process.value.writeFailed || !WholeHeader(e)
  {
    hide SnapshotOf, HeaderImage, RecordImage, OpenStore, DiskAfterOpen, Created, AfterAppend;
    HeaderSize(JournalHeader(m.process.value.state.store, e.nowMs, m.process.value.lastSequence));
  }
}
