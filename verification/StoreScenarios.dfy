/** Runs of the store, from an empty directory, after which it does not reopen: a header that a compaction loses, a
    record that was journalled before it was validated, a journal and a table that outgrow what opening accepts. */
module StoreScenarios {
  import opened Bytes
  import opened Ordering
  import opened Model
  import opened Canonical
  import opened DocumentCodec
  import opened LineageCodec
  import opened JournalFormat
  import opened JournalScan
  import opened SnapshotFormat
  import opened SnapshotCodec
  import opened StoreState
  import opened StoreProtocol
  import Planner
  import Engine

  // ---------------------------------------------------------------- a store that takes records

  function Appends(raws: seq<Raw>): seq<Event> {
    seq(|raws|, i requires 0 <= i < |raws| => Append(raws[i]))
  }

  ghost predicate Reopens(limits: Limits, disk: Disk) {
    hide OpenStore;
    disk.journal.Some? && OpenStore(limits, disk).Ok?
  }

  ghost predicate Refuses(limits: Limits, disk: Disk) {
    hide OpenStore;
    disk.journal.Some? && OpenStore(limits, disk).Refused?
  }

  /** A new store that is handed these records. */
  function Filled(store: StoreId, raws: seq<Raw>): seq<Event> {
    [Open(store, 0)] + Appends(raws)
  }

  function Sizes(raws: seq<Raw>): nat {
    if raws == [] then 0 else Sizes(raws[..|raws| - 1]) + RECORD_HEADER_BYTES + |raws[|raws| - 1].payload|
  }

  /** A process that can write, has never compacted, and has acknowledged exactly these records. */
  ghost predicate Taken(limits: Limits, r: Run, raws: seq<Raw>) {
    && r.log == raws && r.acked == raws && r.machine.disk.snapshot.None?
    && r.machine.disk.journal.Some? && |r.machine.disk.journal.value| == JOURNAL_HEADER_BYTES + Sizes(raws)
    && r.machine.process.Some? && !r.machine.process.value.writeFailed && r.machine.process.value.journalOpen
    && r.machine.process.value.state.tables == Fold(limits, EMPTY, raws)
    && r.machine.process.value.state.compactions == 0
  }

  lemma OneMore(limits: Limits, events: seq<Event>, e: Event)
    ensures Execute(limits, events + [e]) == Advance(limits, Execute(limits, events), e)
  {
    hide Advance;
    var all := events + [e];
    assert all[..|all| - 1] == events;
  }

  lemma Creates(limits: Limits, store: StoreId)
    ensures Taken(limits, Execute(limits, [Open(store, 0)]), [])
  {
    hide HeaderImage, OpenStore, DiskAfterOpen, DecodeSnapshot;
    HeaderSize(JournalHeader(store, 0, 0));
    var none: seq<Event> := [];
    OneMore(limits, none, Open(store, 0));
    assert none + [Open(store, 0)] == [Open(store, 0)];
  }

  lemma TakesOne(limits: Limits, r: Run, raws: seq<Raw>, raw: Raw)
    requires Taken(limits, r, raws) && |raw.payload| <= limits.maxJournalPayloadBytes
    ensures Taken(limits, Advance(limits, r, Append(raw)), raws + [raw])
  {
    hide Fold, ApplyRaw, RecordImage, OpenStore, DiskAfterOpen, Created, Compacting, Sizes, NextSequence;
    RecordImageShape(NextRecord(r.machine.process.value, raw));
    SizesOne(raws, raw);
    FoldOne(limits, raws, raw);
  }

  lemma SizesOne(raws: seq<Raw>, raw: Raw)
    ensures Sizes(raws + [raw]) == Sizes(raws) + RECORD_HEADER_BYTES + |raw.payload|
  {
    var all := raws + [raw];
    assert all[..|all| - 1] == raws;
  }

  lemma FoldOne(limits: Limits, raws: seq<Raw>, raw: Raw)
    ensures Fold(limits, EMPTY, raws + [raw]) == ApplyRaw(limits, Fold(limits, EMPTY, raws), raw)
  {
    hide ApplyRaw;
    FoldAppend(limits, EMPTY, raws, [raw]);
    var t, last := Fold(limits, EMPTY, raws), [raw];
    assert last[1..] == [];
    assert Fold(limits, t, last) == Fold(limits, ApplyRaw(limits, t, raw), []);
  }

  lemma {:induction false} Fills(limits: Limits, store: StoreId, raws: seq<Raw>)
    requires forall i :: 0 <= i < |raws| ==> |raws[i].payload| <= limits.maxJournalPayloadBytes
    ensures Taken(limits, Execute(limits, Filled(store, raws)), raws)
    decreases |raws|
  {
    hide Taken, Execute, Advance;
    if raws == [] {
      assert Filled(store, raws) == [Open(store, 0)];
      Creates(limits, store);
    } else {
      var front, last := raws[..|raws| - 1], raws[|raws| - 1];
      Fills(limits, store, front);
      assert Filled(store, raws) == Filled(store, front) + [Append(last)];
      OneMore(limits, Filled(store, front), Append(last));
      TakesOne(limits, Execute(limits, Filled(store, front)), front, last);
      assert front + [last] == raws;
    }
  }

  lemma FilledValid(store: StoreId, raws: seq<Raw>)
    requires forall i :: 0 <= i < |raws| ==> FIRST_RECORD_TYPE <= raws[i].kind <= LAST_RECORD_TYPE
    ensures ValidEvents(Filled(store, raws))
  {}

  // ---------------------------------------------------------------- the size of a snapshot

  lemma {:induction false} DocumentsSize<V>(encode: V -> seq<byte>, xs: seq<V>, k: seq<byte>, bound: nat)
    requires forall i :: 0 <= i < |xs| ==> |encode(xs[i])| <= bound
    ensures |PutDocuments(encode, xs, k)| <= (4 + bound) * |xs| + |k|
    decreases |xs|
  {
    hide PutBytes;
    if xs != [] {
      DocumentsSize(encode, xs[1..], k, bound);
      EntrySize(Blob(encode(xs[0])), PutDocuments(encode, xs[1..], k));
      OneMoreTimes(4 + bound, |xs| - 1);
    }
  }

  lemma EntrySize(t: seq<byte>, k: seq<byte>)
    ensures |PutBytes(t, k)| == 4 + |t| + |k|
  {
    hide LE;
  }

  lemma OneMoreTimes(a: nat, n: nat)
    ensures a * (n + 1) == a * n + a
  {}

  /** Tables that hold nothing but fences. */
  lemma SnapshotSize(fences: map<Id, Fence>, compactions: nat, bound: nat)
    requires forall id :: id in fences ==> |EncodeFence(fences[id])| <= bound
    ensures |PutTables(EMPTY.(fences := fences), compactions, [])| <= 51 + (4 + bound) * |fences|
  {
    hide LE, EncodeFence, PutDocuments, Values;
    var xs := ValuesInOrder(fences);
    ValuesCount(fences);
    forall i | 0 <= i < |xs| ensures |EncodeFence(xs[i])| <= bound { ValuesUndone(fences, i); }
    DocumentsSize(EncodeFence, xs, PutU64(compactions, []), bound);
    NothingElse();
  }

  /** The other tables of an empty store encode as counts of zero. */
  lemma NothingElse()
    ensures forall k :: PutGenerations(map[], k) == PutU32(0, k) && PutObservations(map[], k) == PutU32(0, k)
    ensures ValuesInOrder<Intent>(map[]) == [] && AttemptsInOrder(map[]) == []
    ensures forall k :: PutDocuments(EncodeIntent, [], k) == k && PutDocuments(EncodeAttempt, [], k) == k
                        && PutDocuments(EncodeOutcome, [], k) == k
  {
    hide LE;
    var intents: map<Id, Intent>, attempts: map<nat, Attempt> := map[], map[];
    assert intents.Keys == {} && attempts.Keys == {};
    assert SortedIds({}) == [];
    ValuesCount(intents);
  }

  // ---------------------------------------------------------------- compacting such a store

  /** What opening asks of the snapshot of these fences and of an empty journal. */
  ghost predicate SizedAndLoadable(limits: Limits, fences: map<Id, Fence>) {
    && JOURNAL_HEADER_BYTES <= limits.maxJournalBytes
    && |PutTables(EMPTY.(fences := fences), 1, [])| <= limits.maxJournalBytes
    && Loadable(limits, EMPTY.(fences := fences))
  }

  /** A store whose tables are nothing but fences is compacted: the snapshot covers the whole log. */
  lemma Compacts(limits: Limits, store: StoreId, raws: seq<Raw>, fences: map<Id, Fence>)
    requires limits.maxJournalPayloadBytes < TWO32 && |raws| < TWO32
    requires forall i :: 0 <= i < |raws| ==> |raws[i].payload| <= limits.maxJournalPayloadBytes
    requires forall i :: 0 <= i < |raws| ==> FIRST_RECORD_TYPE <= raws[i].kind <= LAST_RECORD_TYPE
    requires Fold(limits, EMPTY, raws) == EMPTY.(fences := fences) && Fits(PutTables(EMPTY.(fences := fences), 1, []))
    ensures var r := Execute(limits, Filled(store, raws) + [Compact(0)]);
            && r.log == r.acked == raws && r.machine.process.Some?
            && (Reopens(limits, r.machine.disk) <==> SizedAndLoadable(limits, fences))
            && (Refuses(limits, r.machine.disk) <==> !SizedAndLoadable(limits, fences))
  {
    hide Execute, Advance, Fold, PutTables, OpenStore, Openable, Loadable, ValidEvents, Fits, Filled, SizedAndLoadable;
    var events := Filled(store, raws);
    Fills(limits, store, raws);
    FilledValid(store, raws);
    FilledLength(store, raws);
    CrashRefinement(limits, events);
    var r, r' := Execute(limits, events), Execute(limits, events + [Compact(0)]);
    OneMore(limits, events, Compact(0));
    Publishes(limits, r, raws, fences);
    OneMoreValid(events);
    CrashRefinement(limits, events + [Compact(0)]);
    OpensAfter(limits, r', raws, fences);
  }

  lemma FilledLength(store: StoreId, raws: seq<Raw>)
    ensures |Filled(store, raws)| == |raws| + 1
  {}

  lemma OneMoreValid(events: seq<Event>)
    requires ValidEvents(events)
    ensures ValidEvents(events + [Compact(0)])
  {}

  /** What a compaction of the whole log leaves. */
  ghost predicate Whole(limits: Limits, r: Run, raws: seq<Raw>, fences: map<Id, Fence>) {
    && r.log == raws == r.acked && r.machine.process.Some?
    && r.machine.disk.journal.Some? && |r.machine.disk.journal.value| == JOURNAL_HEADER_BYTES
    && exists store: StoreId ::
         r.machine.disk.snapshot
         == Some(SnapshotImage(SnapshotHeader(store, |raws|, 0, 0), PutTables(EMPTY.(fences := fences), 1, [])))
  }

  lemma Publishes(limits: Limits, r: Run, raws: seq<Raw>, fences: map<Id, Fence>)
    requires Taken(limits, r, raws) && r.machine.process.value.state.sequence == |raws|
    requires Fold(limits, EMPTY, raws) == EMPTY.(fences := fences) && Fits(PutTables(EMPTY.(fences := fences), 1, []))
    ensures Whole(limits, Advance(limits, r, Compact(0)), raws, fences)
  {
    hide Fold, PutTables, HeaderImage, SnapshotImage, RecordImage, OpenStore, DiskAfterOpen, Created, AfterAppend, Fits;
    var p := r.machine.process.value;
    HeaderSize(JournalHeader(p.state.store, 0, p.lastSequence));
    var payload := PutTables(EMPTY.(fences := fences), 1, []);
    var image := SnapshotImage(SnapshotHeader(p.state.store, |raws|, 0, 0), payload);
    assert SnapshotOf(p, 0) == Some(image);
    assert Advance(limits, r, Compact(0)).machine.disk.snapshot == Some(image);
  }

  lemma OpensAfter(limits: Limits, r: Run, raws: seq<Raw>, fences: map<Id, Fence>)
    requires Whole(limits, r, raws, fences) && |raws| < TWO32
    requires Fold(limits, EMPTY, raws) == EMPTY.(fences := fences) && Fits(PutTables(EMPTY.(fences := fences), 1, []))
    ensures Openable(limits, r.machine.disk, r.log) <==> SizedAndLoadable(limits, fences)
  {
    hide Fold, PutTables, SnapshotImage, ParseSnapshot, Loadable;
    var payload := PutTables(EMPTY.(fences := fences), 1, []);
    var store: StoreId :| r.machine.disk.snapshot == Some(SnapshotImage(SnapshotHeader(store, |raws|, 0, 0), payload));
    ParseSnapshotImage(SnapshotHeader(store, |raws|, 0, 0), payload);
    assert raws[..|raws|] == raws;
  }

  // ---------------------------------------------------------------- a lost header

  /** Once the header is lost and the process is down, no process ever opens the store again. */
  lemma {:induction false} LostForever(limits: Limits, events: seq<Event>, more: seq<Event>)
    requires ValidEvents(events + more) && |events + more| < TWO64 - 2 && limits.maxJournalPayloadBytes < TWO32
    requires HeaderLost(Execute(limits, events).machine.disk) && Execute(limits, events).machine.process.None?
    ensures HeaderLost(Execute(limits, events + more).machine.disk)
    ensures Execute(limits, events + more).machine.process.None?
    decreases |more|
  {
    hide Execute, Advance, HeaderLost, ValidEvent, Good;
    if more == [] {
      assert events + more == events;
    } else {
      var front, last := more[..|more| - 1], more[|more| - 1];
      assert events + more == (events + front) + [last];
      EarlierValid(events + front, last);
      LostForever(limits, events, front);
      var r := Execute(limits, events + front);
      OneMore(limits, events + front, last);
      ExecuteIsGood(limits, events + front);
      LostStaysGood(limits, r, last, |events + front|);
      LostStaysDown(limits, r, last);
    }
  }

  lemma EarlierValid(events: seq<Event>, e: Event)
    requires ValidEvents(events + [e])
    ensures ValidEvents(events) && ValidEvent(e)
  {
    hide ValidEvent;
    var all := events + [e];
    assert all[|events|] == e && forall i :: 0 <= i < |events| ==> all[i] == events[i];
  }

  lemma LostStaysDown(limits: Limits, r: Run, e: Event)
    requires HeaderLost(r.machine.disk) && r.machine.process.None?
    ensures Advance(limits, r, e).machine.process.None?
  {
    hide OpenStore, DiskAfterOpen, Created, HeaderImage;
    LostRefuses(limits, r.machine.disk, r.log);
  }

  const NO_PAYLOAD: Raw := Raw(1, [])

  /** One failed write and a compaction: whatever happens next, no process opens this store again. */
  lemma HeaderLostExhibited(limits: Limits, store: StoreId, more: seq<Event>)
    requires limits.maxJournalPayloadBytes < TWO32 && ValidEvents(more) && |more| < TWO64 - 6
    ensures var events := [Open(store, 0), AppendFails(NO_PAYLOAD, 0), Compact(0), Crash];
            && HeaderLost(Execute(limits, events).machine.disk)
            && Execute(limits, events + more).machine.process.None?
  {
    hide Execute, Advance, HeaderLost, Taken;
    var first := [Open(store, 0)];
    var second := first + [AppendFails(NO_PAYLOAD, 0)];
    var third := second + [Compact(0)];
    var events := third + [Crash];
    assert events == [Open(store, 0), AppendFails(NO_PAYLOAD, 0), Compact(0), Crash];
    Creates(limits, store);
    OneMore(limits, first, AppendFails(NO_PAYLOAD, 0));
    OneMore(limits, second, Compact(0));
    OneMore(limits, third, Crash);
    HeaderGoes(limits, Execute(limits, first));
    assert ValidEvents(events + more);
    LostForever(limits, events, more);
  }

  lemma HeaderGoes(limits: Limits, r: Run)
    requires Taken(limits, r, [])
    ensures var r1 := Advance(limits, r, AppendFails(NO_PAYLOAD, 0));
            var r2 := Advance(limits, r1, Compact(0));
            var r3 := Advance(limits, r2, Crash);
            HeaderLost(r3.machine.disk) && r3.machine.process.None?
  {
    hide SnapshotOf, HeaderImage, RecordImage, OpenStore, DiskAfterOpen, Created, AfterAppend, PutTables, HeaderLost;
    var r1 := Advance(limits, r, AppendFails(NO_PAYLOAD, 0));
    var p := r1.machine.process.value;
    assert p.writeFailed && p.state == r.machine.process.value.state;
    EmptySnapshot(p);
    CompactLosesHeader(limits, r1.machine, Compact(0));
  }

  lemma EmptySnapshot(p: Process)
    requires p.state.tables == EMPTY
    ensures SnapshotOf(p, 0).Some?
  {
    hide PutTables;
    assert EMPTY == EMPTY.(fences := map[]);
    SnapshotSize(map[], p.state.compactions + 1, 0);
  }

  // ---------------------------------------------------------------- a fence with too long a detail

  ghost predicate ReopensEmpty(limits: Limits, disk: Disk) {
    Reopens(limits, disk) && OpenStore(limits, disk).value.tables == EMPTY
  }

  /** The installation answers with an error and has journalled the fence. Until a compaction passes the record the
      store does not reopen; afterwards it does, and the fence never took effect. */
  lemma OverlongFenceExhibited(limits: Limits, store: StoreId, f: Fence, t: Tables, live: Planner.Live, clock: int)
    requires limits.maxJournalPayloadBytes < TWO32 && 96 <= limits.maxJournalBytes
    requires TypedFence(f) && f.fencedBelow != 0 && f.createdMs != 0 && MAX_FENCE_DETAIL < |f.detail|
    requires Fits(f.detail) && |PutFence(f, [])| <= limits.maxJournalPayloadBytes
    ensures Engine.PutFenceOp(limits, t, live, f, clock)
         == Engine.Effect(Refused(IntegrityFailure, JOURNAL_ENUM_INVALID), [FencePut(f)])
    ensures var r := Execute(limits, Filled(store, [RawOf(FencePut(f))]));
            r.acked == [RawOf(FencePut(f))] && Refuses(limits, r.machine.disk)
    ensures var r := Execute(limits, Filled(store, [RawOf(FencePut(f))]) + [Compact(0)]);
            r.acked == [RawOf(FencePut(f))] && ReopensEmpty(limits, r.machine.disk)
  {
    hide Execute, Fold, PutFence, OpenStore, Openable, Filled, PutTables, Loadable, ValidEvents, DecodeEntry,
         TypedFence;
    var raw := RawOf(FencePut(f));
    var raws := [raw];
    FenceRefused(limits, t, live, f, clock);
    FenceUndecoded(limits, f);
    FenceSkipped(limits, raw);
    Fills(limits, store, raws);
    FilledValid(store, raws);
    FilledLength(store, raws);
    CrashRefinement(limits, Filled(store, raws));
    NotOpenable(limits, Execute(limits, Filled(store, raws)), raws);
    assert EMPTY == EMPTY.(fences := map[]);
    SnapshotSize(map[], 1, 0);
    EmptyLoads(limits);
    Compacts(limits, store, raws, map[]);
    OneMoreValid(Filled(store, raws));
    CrashRefinement(limits, Filled(store, raws) + [Compact(0)]);
  }

  lemma FenceRefused(limits: Limits, t: Tables, live: Planner.Live, f: Fence, clock: int)
    requires TypedFence(f) && f.fencedBelow != 0 && f.createdMs != 0 && MAX_FENCE_DETAIL < |f.detail|
    ensures Engine.PutFenceOp(limits, t, live, f, clock)
         == Engine.Effect(Refused(IntegrityFailure, JOURNAL_ENUM_INVALID), [FencePut(f)])
  {
    assert f.(createdMs := f.createdMs) == f;
  }

  lemma FenceUndecoded(limits: Limits, f: Fence)
    requires TypedFence(f) && MAX_FENCE_DETAIL < |f.detail| && Fits(f.detail)
    ensures DecodeEntry(limits, KindOf(FencePut(f)), PayloadOf(FencePut(f))).None?
  {
    hide PutFence, ReadFence, ValidIdText, OptionalId, ReadPolicy, ReadIntent, ReadObservation, ReadAttempt,
         ReadOutcome, ReadBytes, ReadU64;
    ReadPutFence(f, []);
  }

  lemma FenceSkipped(limits: Limits, raw: Raw)
    requires DecodeEntry(limits, raw.kind, raw.payload).None?
    ensures Fold(limits, EMPTY, [raw]) == EMPTY && !AllDecode(limits, [raw], 0)
  {
    hide DecodeEntry;
    var none: seq<Raw> := [];
    FoldOne(limits, none, raw);
    assert none + [raw] == [raw];
    assert !Decodes(limits, [raw][0]);
  }

  lemma NotOpenable(limits: Limits, r: Run, raws: seq<Raw>)
    requires Taken(limits, r, raws) && !AllDecode(limits, raws, 0)
    ensures !Openable(limits, r.machine.disk, r.log)
  {
    hide Fold, AllDecode;
  }

  lemma EmptyLoads(limits: Limits)
    ensures Loadable(limits, EMPTY)
  {
    NothingElse();
    ValuesCount<Fence>(map[]);
  }

  // ---------------------------------------------------------------- a journal that outgrows its limit

  function Copies(raw: Raw, n: nat): (raws: seq<Raw>)
    ensures |raws| == n && forall i :: 0 <= i < n ==> raws[i] == raw
  {
    seq(n, _ => raw)
  }

  lemma {:induction false} SizesGrow(raws: seq<Raw>)
    ensures |raws| <= Sizes(raws)
    decreases |raws|
  {
    if raws != [] { SizesGrow(raws[..|raws| - 1]); }
  }

  /** Whatever the limit, enough valid records, every one acknowledged, and the store does not reopen. */
  lemma SizeOutgrown(limits: Limits, store: StoreId, e: Entry)
    requires |PayloadOf(e)| <= limits.maxJournalPayloadBytes
    ensures var raws := Copies(RawOf(e), limits.maxJournalBytes);
            var r := Execute(limits, Filled(store, raws));
            r.acked == raws && Refuses(limits, r.machine.disk)
  {
    hide Execute, Fold, Filled, PayloadOf, ScanFrom, ParseHeader, Rebuild, Sizes, ReadSnapshotFile;
    var raws := Copies(RawOf(e), limits.maxJournalBytes);
    Fills(limits, store, raws);
    SizesGrow(raws);
  }

  // ---------------------------------------------------------------- a table that outgrows the loader

  /** Four letters for a number. */
  function Name(i: nat): Id {
    [97 + i % 26, 97 + i / 26 % 26, 97 + i / 676 % 26, 97 + i / 17576 % 26]
  }

  const NAMES: nat := 456976

  lemma NameTells(i: nat, j: nat)
    requires i < NAMES && j < NAMES && Name(i) == Name(j)
    ensures i == j
  {
    NameNumber(i);
    NameNumber(j);
    var a, b := Name(i), Name(j);
    assert a[0] == b[0] && a[1] == b[1] && a[2] == b[2] && a[3] == b[3];
  }

  lemma NameNumber(i: nat)
    requires i < NAMES
    ensures var s := Name(i);
            i + 97 * (1 + 26 + 676 + 17576) == s[0] + 26 * s[1] as int + 676 * s[2] as int + 17576 * s[3] as int
  {
    assert i / 676 == i / 26 / 26 && i / 17576 == i / 676 / 26;
  }

  function FenceNo(i: nat): Fence {
    Fence(Name(i), [115], [], 1, NO_REASON, [], 1)
  }

  function FenceTable(n: nat): map<Id, Fence> {
    if n == 0 then map[] else FenceTable(n - 1)[Name(n - 1) := FenceNo(n - 1)]
  }

  function FenceRaws(n: nat): (raws: seq<Raw>)
    ensures |raws| == n
  {
    if n == 0 then [] else FenceRaws(n - 1) + [RawOf(FencePut(FenceNo(n - 1)))]
  }

  lemma FenceIsValid(i: nat)
    ensures ValidFence(FenceNo(i)) && |PutFence(FenceNo(i), [])| == 39
  {
    hide LE;
  }

  lemma FenceSize(i: nat)
    ensures |EncodeFence(FenceNo(i))| == 39
  {
    hide PutFence, Name;
    FenceIsValid(i);
  }

  lemma {:induction false} FenceTableSize(n: nat)
    requires n <= NAMES
    ensures |FenceTable(n)| == n
    ensures forall id :: id in FenceTable(n) ==>
              exists i: nat :: i < n && id == Name(i) && FenceTable(n)[id] == FenceNo(i)
    decreases n
  {
    hide Name;
    if n > 0 {
      FenceTableSize(n - 1);
      if Name(n - 1) in FenceTable(n - 1) {
        var i: nat :| i < n - 1 && Name(n - 1) == Name(i);
        NameTells(i, n - 1);
        assert false;
      }
      assert Name(n - 1) == Name(n - 1) && FenceTable(n)[Name(n - 1)] == FenceNo(n - 1);
    }
  }

  lemma {:induction false} FenceRawsFold(limits: Limits, n: nat)
    ensures Fold(limits, EMPTY, FenceRaws(n)) == EMPTY.(fences := FenceTable(n))
    ensures forall i :: 0 <= i < n ==> |FenceRaws(n)[i].payload| == 39 && FenceRaws(n)[i].kind == 8
    decreases n
  {
    hide Fold, RawOf, ApplyRaw, Name;
    if n == 0 {
      NothingFolds(limits);
    } else {
      FenceRawsFold(limits, n - 1);
      FoldOne(limits, FenceRaws(n - 1), RawOf(FencePut(FenceNo(n - 1))));
      FenceGoesIn(limits, EMPTY.(fences := FenceTable(n - 1)), n - 1);
    }
  }

  lemma NothingFolds(limits: Limits)
    ensures Fold(limits, EMPTY, []) == EMPTY
  {}

  lemma FenceGoesIn(limits: Limits, t: Tables, i: nat)
    ensures var raw := RawOf(FencePut(FenceNo(i)));
            && raw.kind == 8 && |raw.payload| == 39
            && ApplyRaw(limits, t, raw) == t.(fences := t.fences[Name(i) := FenceNo(i)])
  {
    hide PayloadOf, DecodeEntry, Name;
    FenceIsValid(i);
    FencePayload(FenceNo(i));
    DecodeOfPayload(limits, FencePut(FenceNo(i)));
  }

  lemma FencePayload(f: Fence)
    ensures PayloadOf(FencePut(f)) == PutFence(f, [])
  {}

  /** Sixteen fences for every scope the limits allow, and one more: every one is acknowledged and in force, the
      compaction succeeds, and the store does not reopen. */
  lemma TableOutgrown(limits: Limits, store: StoreId)
    requires 39 <= limits.maxJournalPayloadBytes < TWO32 && limits.maxScopes * 16 < NAMES
    ensures var raws := FenceRaws(limits.maxScopes * 16 + 1);
            var r := Execute(limits, Filled(store, raws) + [Compact(0)]);
            r.acked == raws && r.machine.process.Some? && Refuses(limits, r.machine.disk)
  {
    hide Execute, Fold, Filled, PutTables, OpenStore, FenceTable, FenceRaws, Name, FenceNo, EncodeFence,
         SizedAndLoadable;
    var n := limits.maxScopes * 16 + 1;
    var fences := FenceTable(n);
    FenceRawsFold(limits, n);
    FenceTableSize(n);
    forall id | id in fences ensures |EncodeFence(fences[id])| <= 39 {
      var i: nat :| i < n && id == Name(i) && fences[id] == FenceNo(i);
      FenceSize(i);
    }
    SnapshotSize(fences, 1, 39);
    Compacts(limits, store, FenceRaws(n), fences);
    Unloadable(limits, fences);
  }

  lemma Unloadable(limits: Limits, fences: map<Id, Fence>)
    requires limits.maxScopes * 16 < |fences|
    ensures !SizedAndLoadable(limits, fences)
  {
    hide AllFit, ValuesInOrder, AttemptsInOrder, PutTables;
  }
}
