/** The engine and the durable store as one system: every record an operation hands over is an append of the store, and
    the engine's log is the store's, byte for byte, however the process stops, fails, compacts and reopens. */
module EngineOnStore {
  import opened Bytes
  import opened Model
  import opened Canonical
  import opened DocumentCodec
  import opened LineageCodec
  import opened JournalFormat
  import opened JournalScan
  import opened StoreState
  import opened RecordSizes
  import opened Planner
  import opened Engine
  import opened EngineRuns
  import opened EngineSafety
  import opened EngineStorage
  import SP = StoreProtocol

  /** What happens to the system: a process opens the store and begins, is asked for a plan, performs an operation,
      compacts the store, or goes down. `kept` is how much of an interrupted record reached the file. */
  datatype Step =
    | Begin(supplied: Option<Policy>, boot: BootId, clock: int, cut: nat, kept: nat, store: StoreId, nowMs: int)
    | Query(request: Request)
    | Operate(op: Op, cut: nat, fate: Fate, kept: nat)
    | Tidy(event: SP.Event)
    | Down(event: SP.Event)

  datatype System = System(w: World, r: SP.Run)

  const EMPTY_SYSTEM: System := System(INITIAL, SP.START)

  predicate ValidStep(x: Step) {
    match x
    case Begin(supplied, _, clock, _, _, _, now) => InI64(clock) && InI64(now)
      && (supplied.Some? ==> TypedPolicy(supplied.value))
    case Query(request) => OptionalId(request.scope)
    case Operate(op, _, _, _) => TypedOp(op)
    case Tidy(event) => (event.Compact? || event.CompactFails?) && SP.ValidEvent(event)
    case Down(event) =>
      && (event.Crash? || event.CrashAfterSnapshot? || event.CrashInReset? || event.CrashInOpen?
          || event.CrashInCreate?)
      && SP.ValidEvent(event)
  }

  // ---------------------------------------------------------------- both sides of a step

  function Appends(entries: seq<Entry>): seq<SP.Event> {
    if entries == [] then [] else Appends(entries[..|entries| - 1]) + [SP.Append(RawOf(entries[|entries| - 1]))]
  }

  function ImageSize(raw: Raw): nat {
    |RecordImage(JournalRecord(1, raw.kind, raw.payload))|
  }

  /** Fewer bytes than the whole record. */
  function Short(raw: Raw, kept: nat): nat {
    if kept < ImageSize(raw) then kept else 0
  }

  /** The records an operation of this state makes durable. */
  function Handed(limits: Limits, w: World, op: Op): seq<Entry> {
    if w.live.None? || (op.DispatchPlan? && !Held(w.plans, op.plan)) then []
    else EntriesOf(limits, Memory(limits, w), w.live.value, op)
  }

  /** Interrupting an opening that is not under way changes nothing. */
  predicate Interrupts(w: World, event: SP.Event) {
    w.live.None? || (!event.CrashInOpen? && !event.CrashInCreate?)
  }

  function EngineSide(limits: Limits, s: System, x: Step): seq<Event> {
    match x
    case Begin(supplied, boot, clock, cut, _, store, now) =>
      if s.w.live.Some? || SP.Advance(limits, s.r, SP.Open(store, now)).machine.process.None? then []
      else [Start(supplied, boot, clock, cut)]
    case Query(request) => [Ask(request)]
    case Operate(op, cut, fate, _) => [Do(op, cut, fate)]
    case Tidy(event) =>
      var after := SP.Advance(limits, s.r, event).machine.process;
      if s.w.live.None? || after.None? then [] else [Compaction(!after.value.journalOpen, after.value.writeFailed)]
    case Down(event) => if Interrupts(s.w, event) then [Stop] else []
  }

  function OperateSide(limits: Limits, w: World, entries: seq<Entry>, cut: nat, fate: Fate, kept: nat): seq<SP.Event> {
    var room := Room(limits, w, entries);
    var n := Smaller(cut, room);
    if n == room || |entries| <= n then Appends(Prefix(entries, n))
    else
      var raw := RawOf(entries[n]);
      Appends(Prefix(entries, n))
      + [match fate
         case Stops => SP.CrashInAppend(raw, Short(raw, kept))
         case Fails(landed) => SP.AppendFails(raw, Left(raw, landed, kept))]
  }

  function Prefix(entries: seq<Entry>, n: nat): seq<Entry> {
    if n <= |entries| then entries[..n] else entries
  }

  /** The records of a restart. One that is interrupted while it is written ends the process, and so does a write that
      fails: no operation is served before the restart is complete. */
  function BeginSide(limits: Limits, effect: Effect<Live>, cut: nat, kept: nat): seq<SP.Event> {
    var n := Smaller(cut, Reach(limits, effect.entries));
    Appends(effect.entries[..n]) + AfterBegin(limits, effect, n, kept)
  }

  function AfterBegin(limits: Limits, effect: Effect<Live>, n: nat, kept: nat): seq<SP.Event> {
    if n < Reach(limits, effect.entries) then
      var raw := RawOf(effect.entries[n]);
      [SP.CrashInAppend(raw, Short(raw, kept))]
    else if n == |effect.entries| && effect.result.Ok? then []
    else [SP.Crash]
  }

  function StoreSide(limits: Limits, s: System, x: Step): seq<SP.Event> {
    match x
    case Begin(supplied, boot, clock, cut, kept, store, now) =>
      if s.w.live.Some? then []
      else if SP.Advance(limits, s.r, SP.Open(store, now)).machine.process.None? then [SP.Open(store, now)]
      else
        var effect := Boot(limits, TablesOf(limits, s.w), supplied, boot, clock);
        [SP.Open(store, now)] + BeginSide(limits, effect, cut, kept)
    case Query(_) => []
    case Operate(op, cut, fate, kept) => OperateSide(limits, s.w, Handed(limits, s.w, op), cut, fate, kept)
    case Tidy(event) => if s.w.live.None? then [] else [event]
    case Down(event) => [event]
  }

  function Advances(limits: Limits, r: SP.Run, events: seq<SP.Event>): SP.Run {
    hide SP.Advance;
    if events == [] then r else SP.Advance(limits, Advances(limits, r, events[..|events| - 1]), events[|events| - 1])
  }

  function Both(limits: Limits, s: System, x: Step): System {
    System(RunFrom(limits, s.w, EngineSide(limits, s, x)), Advances(limits, s.r, StoreSide(limits, s, x)))
  }

  function Runs(limits: Limits, steps: seq<Step>): System {
    hide Both;
    if steps == [] then EMPTY_SYSTEM else Both(limits, Runs(limits, steps[..|steps| - 1]), steps[|steps| - 1])
  }

  /** Everything the store went through. */
  function StoreTrace(limits: Limits, steps: seq<Step>): seq<SP.Event> {
    hide Runs, StoreSide;
    if steps == [] then []
    else
      var front := steps[..|steps| - 1];
      StoreTrace(limits, front) + StoreSide(limits, Runs(limits, front), steps[|steps| - 1])
  }

  /** Everything the engine went through. */
  function EngineTrace(limits: Limits, steps: seq<Step>): seq<Event> {
    hide Runs, EngineSide;
    if steps == [] then []
    else
      var front := steps[..|steps| - 1];
      EngineTrace(limits, front) + EngineSide(limits, Runs(limits, front), steps[|steps| - 1])
  }

  // ---------------------------------------------------------------- the two sides agree

  /** The store's process is the engine's: same tables, same journal state. */
  ghost predicate Mirrors(limits: Limits, w: World, p: SP.Process) {
    p.writeFailed == w.failed && p.journalOpen == !w.closed && p.state.tables == Memory(limits, w)
  }

  ghost predicate Agree(limits: Limits, s: System) {
    && s.r.log == RawLog(s.w.log)
    && (s.w.live.Some? <==> s.r.machine.process.Some?)
    && (s.w.live.Some? ==> Mirrors(limits, s.w, s.r.machine.process.value))
  }

  lemma RawLogAppend(a: seq<Entry>, e: Entry)
    ensures RawLog(a + [e]) == RawLog(a) + [RawOf(e)]
  {
    hide RawOf;
  }

  lemma ImageSizeIs(p: SP.Process, raw: Raw)
    ensures |RecordImage(SP.NextRecord(p, raw))| == ImageSize(raw) > 0
  {
    RecordImageShape(SP.NextRecord(p, raw));
    RecordImageShape(JournalRecord(1, raw.kind, raw.payload));
  }

  /** A run of the store whose process can write, with these tables. */
  ghost predicate Writing(r: SP.Run, t: Tables) {
    && r.machine.process.Some? && !r.machine.process.value.writeFailed && r.machine.process.value.journalOpen
    && r.machine.process.value.state.tables == t
  }

  lemma AppendOne(limits: Limits, r: SP.Run, t: Tables, e: Entry)
    requires Writing(r, t) && Storable(limits, e) && Accepted(limits, e)
    ensures var r' := SP.Advance(limits, r, SP.Append(RawOf(e)));
            Writing(r', Commit(limits, t, e)) && r'.log == r.log + [RawOf(e)]
  {
    hide Storable, Commit, ApplyRaw, PayloadOf, RecordImage, SP.OpenStore, SP.DiskAfterOpen, SP.Created, SP.SnapshotOf,
         SP.Compacted, Fits;
    StoredAsCommitted(limits, t, e);
  }

  lemma AppendsLast(front: seq<Entry>, last: Entry)
    ensures Appends(front + [last]) == Appends(front) + [SP.Append(RawOf(last))]
  {
    hide RawOf;
    assert (front + [last])[..|front|] == front;
  }

  lemma {:induction false} AppendMany(limits: Limits, r: SP.Run, t: Tables, log: seq<Entry>, entries: seq<Entry>)
    requires Writing(r, t) && r.log == RawLog(log) && AllStorable(limits, entries) && AllAccepted(limits, entries)
    ensures var r' := Advances(limits, r, Appends(entries));
            Writing(r', CommitAll(limits, t, entries)) && r'.log == RawLog(log + entries)
    decreases |entries|
  {
    hide Writing, Storable, Accepted, CommitAll, SP.Advance, RawOf, RawLog, Appends, Advances;
    if entries == [] {
      NoAppends(limits, r, t);
      assert log + entries == log;
    } else {
      var front, last := entries[..|entries| - 1], entries[|entries| - 1];
      assert entries == front + [last];
      AppendMany(limits, r, t, log, front);
      AppendOneMore(limits, r, t, log, front, last);
    }
  }

  lemma NoAppends(limits: Limits, r: SP.Run, t: Tables)
    ensures Advances(limits, r, Appends([])) == r && CommitAll(limits, t, []) == t
  {}

  lemma AppendOneMore(limits: Limits, r: SP.Run, t: Tables, log: seq<Entry>, front: seq<Entry>, last: Entry)
    requires var mid := Advances(limits, r, Appends(front));
             Writing(mid, CommitAll(limits, t, front)) && mid.log == RawLog(log + front)
    requires Storable(limits, last) && Accepted(limits, last)
    ensures var r' := Advances(limits, r, Appends(front + [last]));
            Writing(r', CommitAll(limits, t, front + [last])) && r'.log == RawLog(log + (front + [last]))
  {
    hide Writing, Storable, Accepted, CommitAll, SP.Advance, RawOf, RawLog, Appends, Advances;
    AppendOne(limits, Advances(limits, r, Appends(front)), CommitAll(limits, t, front), last);
    AppendsLast(front, last);
    AdvancesLast(limits, r, Appends(front), SP.Append(RawOf(last)));
    CommitSplit(limits, t, NOTHING, front, [last]);
    CommitLast(limits, CommitAll(limits, t, front), last);
    assert log + (front + [last]) == (log + front) + [last];
    RawLogAppend(log + front, last);
  }

  lemma CommitLast(limits: Limits, t: Tables, e: Entry)
    ensures CommitAll(limits, t, [e]) == Commit(limits, t, e)
  {
    hide Commit;
    var es := [e];
    assert es[1..] == [];
  }

  lemma AdvancesLast(limits: Limits, r: SP.Run, events: seq<SP.Event>, e: SP.Event)
    ensures Advances(limits, r, events + [e]) == SP.Advance(limits, Advances(limits, r, events), e)
  {
    hide SP.Advance;
    assert (events + [e])[..|events|] == events;
  }

  lemma {:induction false} AdvancesSplit(limits: Limits, r: SP.Run, a: seq<SP.Event>, b: seq<SP.Event>)
    ensures Advances(limits, r, a + b) == Advances(limits, Advances(limits, r, a), b)
    decreases |b|
  {
    hide SP.Advance;
    if b == [] {
      assert a + b == a;
    } else {
      var front, last := b[..|b| - 1], b[|b| - 1];
      AdvancesSplit(limits, r, a, front);
      AdvancesLast(limits, r, a + front, last);
      AdvancesLast(limits, Advances(limits, r, a), front, last);
      assert a + b == (a + front) + [last] && b == front + [last];
    }
  }

  // ---------------------------------------------------------------- operations

  lemma FailOne(limits: Limits, r: SP.Run, t: Tables, e: Entry, kept: nat)
    requires Writing(r, t) && Accepted(limits, e)
    ensures var r' := SP.Advance(limits, r, SP.AppendFails(RawOf(e), kept));
            && r'.machine.process == Some(r.machine.process.value.(writeFailed := true))
            && r'.log == (if kept >= ImageSize(RawOf(e)) then r.log + [RawOf(e)] else r.log)
  {
    hide PayloadOf, RecordImage, SP.OpenStore, SP.DiskAfterOpen, SP.Created, SP.SnapshotOf, SP.Compacted, Fits,
         ApplyRaw;
    ImageSizeIs(r.machine.process.value, RawOf(e));
  }

  lemma StopInOne(limits: Limits, r: SP.Run, t: Tables, e: Entry, kept: nat)
    requires Writing(r, t) && Accepted(limits, e) && kept < ImageSize(RawOf(e))
    ensures var r' := SP.Advance(limits, r, SP.CrashInAppend(RawOf(e), kept));
            r'.machine.process.None? && r'.log == r.log
  {
    hide PayloadOf, RecordImage, SP.OpenStore, SP.DiskAfterOpen, SP.Created, SP.SnapshotOf, SP.Compacted, Fits,
         ApplyRaw;
    ImageSizeIs(r.machine.process.value, RawOf(e));
  }

  /** What the first `n` records of an operation leave. */
  lemma FrontAgrees(limits: Limits, s: System, live: Live, entries: seq<Entry>, n: nat)
    requires Agree(limits, s) && Safe(limits, s.w) && s.w.live == Some(live) && !s.w.failed && !s.w.closed
    requires AllStorable(limits, entries) && n <= Reach(limits, entries)
    ensures var mid := Advances(limits, s.r, Appends(entries[..n]));
            && Writing(mid, CommitAll(limits, EMPTY, s.w.log + entries[..n]))
            && mid.log == RawLog(s.w.log + entries[..n])
            && s.w.applied == |s.w.log|
  {
    hide Safe, AllStorable, AllAccepted, CommitAll, SP.Advance, Advances, Appends, RawLog, Reach;
    HealthyFacts(limits, s.w, live);
    PrefixTaken(limits, entries, n);
    AppendMany(limits, s.r, TablesOf(limits, s.w), s.w.log, entries[..n]);
    CommitSplitLog(limits, s.w.log, entries[..n]);
  }

  lemma StopAgrees(limits: Limits, s: System, live: Live, op: Op, entries: seq<Entry>, n: nat, kept: nat)
    requires Agree(limits, s) && Safe(limits, s.w) && s.w.live == Some(live) && !s.w.failed && !s.w.closed
    requires AllStorable(limits, entries) && n < Reach(limits, entries)
    ensures var raw := RawOf(entries[n]);
            var r' := Advances(limits, s.r, Appends(entries[..n]) + [SP.CrashInAppend(raw, Short(raw, kept))]);
            r'.log == RawLog(s.w.log + entries[..n]) && r'.machine.process.None?
  {
    hide Agree, Safe, AllStorable, Accepted, CommitAll, SP.Advance, Advances, Appends, RawLog, RawOf, ImageSize,
         Writing;
    var raw := RawOf(entries[n]);
    FrontAgrees(limits, s, live, entries, n);
    var mid := Advances(limits, s.r, Appends(entries[..n]));
    ImageSizePositive(raw);
    StopInOne(limits, mid, CommitAll(limits, EMPTY, s.w.log + entries[..n]), entries[n], Short(raw, kept));
    AdvancesLast(limits, s.r, Appends(entries[..n]), SP.CrashInAppend(raw, Short(raw, kept)));
  }

  lemma ImageSizePositive(raw: Raw)
    ensures 0 < ImageSize(raw)
  {
    hide RecordImage;
    RecordImageShape(JournalRecord(1, raw.kind, raw.payload));
  }

  /** A process that can no longer write, with these tables and this log. */
  ghost predicate Stuck(r: SP.Run, log: seq<Raw>, t: Tables) {
    && r.log == log && r.machine.process.Some? && r.machine.process.value.writeFailed
    && r.machine.process.value.journalOpen && r.machine.process.value.state.tables == t
  }

  /** How much of a record a failing write leaves. */
  function Left(raw: Raw, landed: bool, kept: nat): nat {
    if landed then ImageSize(raw) else Short(raw, kept)
  }

  lemma FailAgrees(limits: Limits, s: System, live: Live, op: Op, entries: seq<Entry>, n: nat, landed: bool, kept: nat)
    requires Agree(limits, s) && Safe(limits, s.w) && s.w.live == Some(live) && !s.w.failed && !s.w.closed
    requires AllStorable(limits, entries) && n < Reach(limits, entries)
    ensures var raw, front := RawOf(entries[n]), entries[..n];
            var events := Appends(front) + [SP.AppendFails(raw, Left(raw, landed, kept))];
            Stuck(Advances(limits, s.r, events), RawLog(s.w.log + (if landed then entries[..n + 1] else front)),
                  CommitAll(limits, EMPTY, s.w.log + front))
  {
    hide Agree, Safe, AllStorable, Accepted, CommitAll, SP.Advance, Advances, Appends, RawLog, RawOf, ImageSize;
    var raw, front := RawOf(entries[n]), entries[..n];
    var bytes := Left(raw, landed, kept);
    FrontAgrees(limits, s, live, entries, n);
    var mid := Advances(limits, s.r, Appends(front));
    ImageSizePositive(raw);
    FailOne(limits, mid, CommitAll(limits, EMPTY, s.w.log + front), entries[n], bytes);
    AdvancesLast(limits, s.r, Appends(front), SP.AppendFails(raw, bytes));
    assert s.w.log + entries[..n + 1] == (s.w.log + front) + [entries[n]];
    RawLogAppend(s.w.log + front, entries[n]);
  }

  /** An operation of a process that can write. */
  lemma OperateAgrees(limits: Limits, s: System, live: Live, op: Op, entries: seq<Entry>, cut: nat, fate: Fate,
                      kept: nat)
    requires Agree(limits, s) && Safe(limits, s.w) && s.w.live == Some(live) && !s.w.failed && !s.w.closed
    requires AllStorable(limits, entries)
    ensures Agree(limits, System(Perform(limits, s.w, op, entries, cut, fate),
                                 Advances(limits, s.r, OperateSide(limits, s.w, entries, cut, fate, kept))))
  {
    hide Safe, AllStorable, CommitAll, Advances, Appends, RawLog, Reach, Breaches, RawOf, TablesOf, Short, ImageSize;
    var n, room := Smaller(cut, Reach(limits, entries)), Reach(limits, entries);
    FrontAgrees(limits, s, live, entries, n);
    var w' := Perform(limits, s.w, op, entries, cut, fate);
    assert Prefix(entries, n) == entries[..n];
    assert AppliedLog(w') == s.w.log + entries[..n];
    if n < room {
      match fate {
        case Stops => StopAgrees(limits, s, live, op, entries, n, kept);
        case Fails(landed) => FailAgrees(limits, s, live, op, entries, n, landed, kept);
      }
    }
  }

  lemma PrefixTaken(limits: Limits, entries: seq<Entry>, n: nat)
    requires AllStorable(limits, entries) && n <= Reach(limits, entries)
    ensures AllStorable(limits, entries[..n]) && AllAccepted(limits, entries[..n])
  {
    hide Storable, Accepted;
  }

  lemma CommitSplitLog(limits: Limits, log: seq<Entry>, more: seq<Entry>)
    ensures CommitAll(limits, EMPTY, log + more) == CommitAll(limits, CommitAll(limits, EMPTY, log), more)
  {
    hide CommitAll;
    CommitSplit(limits, EMPTY, NOTHING, log, more);
  }

  // ---------------------------------------------------------------- beginning, compacting, going down

  lemma OneEvent(limits: Limits, r: SP.Run, e: SP.Event)
    ensures Advances(limits, r, []) == r && Advances(limits, r, [e]) == SP.Advance(limits, r, e)
  {
    hide SP.Advance;
    AdvancesLast(limits, r, [], e);
    assert [] + [e] == [e];
  }

  lemma RunNone(limits: Limits, w: World, e: Event)
    ensures RunFrom(limits, w, []) == w && RunFrom(limits, w, [e]) == Next(limits, w, e)
  {
    hide Next;
    var es := [e];
    assert es[1..] == [];
  }

  lemma {:induction false} ExecuteSplit(limits: Limits, a: seq<SP.Event>, b: seq<SP.Event>)
    ensures SP.Execute(limits, a + b) == Advances(limits, SP.Execute(limits, a), b)
    decreases |b|
  {
    hide SP.Advance;
    if b == [] {
      assert a + b == a;
    } else {
      var front, last := b[..|b| - 1], b[|b| - 1];
      ExecuteSplit(limits, a, front);
      assert a + b == (a + front) + [last] && (a + b)[..|a + b| - 1] == a + front;
    }
  }

  /** A store run that can still take steps. */
  predicate Traced(limits: Limits, r: SP.Run, trace: seq<SP.Event>) {
    r == SP.Execute(limits, trace) && SP.ValidEvents(trace) && |trace| < TWO64 - 3
    && limits.maxJournalPayloadBytes < TWO32
  }

  /** A process that opened the store holds the tables of the engine's log. */
  lemma OpensAsLogged(limits: Limits, s: System, trace: seq<SP.Event>, store: StoreId, now: int)
    requires Agree(limits, s) && Kept(limits, s.w) && s.w.live.None? && Traced(limits, s.r, trace) && InI64(now)
    ensures var r' := SP.Advance(limits, s.r, SP.Open(store, now));
            r'.log == s.r.log && (r'.machine.process.Some? ==> Writing(r', TablesOf(limits, s.w)))
  {
    hide SP.Execute, SP.ValidEvents, SP.OpenStore, SP.Created, SP.DiskAfterOpen, SP.Openable, Fold, CommitAll,
         AllStorable, AllAccepted, PlansStorable, RawLog;
    var open := SP.Open(store, now);
    ExecuteSplit(limits, trace, [open]);
    OneEvent(limits, s.r, open);
    OneMoreEvent(trace, open);
    SP.CrashRefinement(limits, trace + [open]);
    FoldIsCommitAll(limits, EMPTY, s.w.log);
    OpenIsWhole(limits, s.r, store, now);
  }

  lemma OneMoreEvent(trace: seq<SP.Event>, e: SP.Event)
    requires SP.ValidEvents(trace) && SP.ValidEvent(e)
    ensures SP.ValidEvents(trace + [e])
  {
    hide SP.ValidEvent;
  }

  lemma OpenIsWhole(limits: Limits, r: SP.Run, store: StoreId, now: int)
    requires r.machine.process.None?
    ensures var r' := SP.Advance(limits, r, SP.Open(store, now));
            && r'.log == r.log
            && (r'.machine.process.Some? ==>
                  !r'.machine.process.value.writeFailed && r'.machine.process.value.journalOpen)
  {
    hide SP.OpenStore, SP.DiskAfterOpen, SP.Rebuild, SP.ReadSnapshotFile, HeaderImage;
  }

  lemma StopsCompacting(limits: Limits, r: SP.Run, event: SP.Event)
    requires r.machine.process.Some? && (event.CrashAfterSnapshot? || event.CrashInReset?)
    ensures SP.Advance(limits, r, event).log == r.log && SP.Advance(limits, r, event).machine.process.None?
  {
    hide SP.Advance, SP.SnapshotOf, HeaderImage;
    SP.CompactionStep(limits, r, event);
  }

  lemma StopsOtherwise(limits: Limits, r: SP.Run, event: SP.Event)
    requires event.Crash? || event.CrashInOpen? || event.CrashInCreate? || r.machine.process.None?
    requires !event.Open?
    ensures event.Crash? || r.machine.process.None? ==>
              SP.Advance(limits, r, event).log == r.log && SP.Advance(limits, r, event).machine.process.None?
    ensures r.machine.process.Some? && (event.CrashInOpen? || event.CrashInCreate?) ==>
              SP.Advance(limits, r, event) == r
  {
    hide SP.OpenStore, SP.DiskAfterOpen, SP.Compacting, HeaderImage, SP.Created, RecordImage;
  }

  lemma GoesDown(limits: Limits, r: SP.Run, event: SP.Event)
    requires || event.Crash? || event.CrashAfterSnapshot? || event.CrashInReset? || event.CrashInOpen?
             || event.CrashInCreate?
    ensures SP.Advance(limits, r, event).log == r.log
    ensures event.Crash? || event.CrashAfterSnapshot? || event.CrashInReset? || r.machine.process.None? ==>
              SP.Advance(limits, r, event).machine.process.None?
    ensures r.machine.process.Some? && (event.CrashInOpen? || event.CrashInCreate?) ==>
              SP.Advance(limits, r, event) == r
  {
    hide SP.Advance;
    if r.machine.process.Some? && (event.CrashAfterSnapshot? || event.CrashInReset?) {
      StopsCompacting(limits, r, event);
    } else {
      StopsOtherwise(limits, r, event);
    }
  }

  lemma TidyFacts(limits: Limits, r: SP.Run, event: SP.Event)
    requires r.machine.process.Some? && (event.Compact? || event.CompactFails?)
    ensures var r' := SP.Advance(limits, r, event);
            && r'.log == r.log && r'.machine.process.Some?
            && r'.machine.process.value.state.tables == r.machine.process.value.state.tables
            && (r.machine.process.value.writeFailed ==> r'.machine.process.value.writeFailed)
  {
    hide SP.Advance, SP.SnapshotOf, HeaderImage;
    SP.CompactionStep(limits, r, event);
  }

  lemma BeginAgrees(limits: Limits, s: System, x: Step, trace: seq<SP.Event>)
    requires Agree(limits, s) && Safe(limits, s.w) && Kept(limits, s.w) && s.w.live.None? && Traced(limits, s.r, trace)
    requires x.Begin? && ValidStep(x) && limits.maxTransitions >= 1
    ensures Agree(limits, Both(limits, s, x))
  {
    hide Safe, Kept, SP.Advance, Advances, Appends, CommitAll, RawLog, Boot, TypedPolicy, Reach, AllStorable,
         AllAccepted, Writing, Traced;
    var open := SP.Open(x.store, x.nowMs);
    var r1 := SP.Advance(limits, s.r, open);
    OpensAsLogged(limits, s, trace, x.store, x.nowMs);
    OneEvent(limits, s.r, open);
    RunNone(limits, s.w, Start(x.supplied, x.boot, x.clock, x.cut));
    if r1.machine.process.None? {
      assert Both(limits, s, x) == System(s.w, r1);
    } else {
      var t := TablesOf(limits, s.w);
      var effect := Boot(limits, t, x.supplied, x.boot, x.clock);
      WorldValid(limits, s.w);
      BootStorable(limits, t, x.supplied, x.boot, x.clock);
      AdvancesSplit(limits, s.r, [open], BeginSide(limits, effect, x.cut, x.kept));
      BeginRecords(limits, s.w, r1, effect, x.cut, x.kept);
    }
  }

  lemma BeginRecords(limits: Limits, w: World, r: SP.Run, effect: Effect<Live>, cut: nat, kept: nat)
    requires Writing(r, TablesOf(limits, w)) && r.log == RawLog(w.log) && AllStorable(limits, effect.entries)
    ensures Agree(limits, System(Restarted(limits, w, effect, cut),
                                 Advances(limits, r, BeginSide(limits, effect, cut, kept))))
  {
    hide SP.Advance, Advances, Appends, CommitAll, RawLog, Reach, AllStorable, AllAccepted, AfterBegin;
    var n := Smaller(cut, Reach(limits, effect.entries));
    var front := effect.entries[..n];
    PrefixTaken(limits, effect.entries, n);
    AppendMany(limits, r, TablesOf(limits, w), w.log, front);
    CommitSplitLog(limits, w.log, front);
    var w' := Restarted(limits, w, effect, cut);
    assert AppliedLog(w') == w.log + front;
    var mid := Advances(limits, r, Appends(front));
    AdvancesSplit(limits, r, Appends(front), AfterBegin(limits, effect, n, kept));
    BeginEnds(limits, mid, TablesOf(limits, w'), effect, n, kept);
  }

  /** How a restart ends once `n` of its records are durable. */
  lemma BeginEnds(limits: Limits, mid: SP.Run, t: Tables, effect: Effect<Live>, n: nat, kept: nat)
    requires Writing(mid, t) && n <= Reach(limits, effect.entries)
    ensures var after := AfterBegin(limits, effect, n, kept);
            && Advances(limits, mid, after).log == mid.log
            && (if n == |effect.entries| && effect.result.Ok? then Advances(limits, mid, after) == mid
                else Advances(limits, mid, after).machine.process.None?)
  {
    hide SP.Advance, Advances, Accepted, RawOf, ImageSize, Writing;
    OneEvent(limits, mid, SP.Crash);
    if n < Reach(limits, effect.entries) {
      var raw := RawOf(effect.entries[n]);
      ImageSizePositive(raw);
      OneEvent(limits, mid, SP.CrashInAppend(raw, Short(raw, kept)));
      StopInOne(limits, mid, t, effect.entries[n], Short(raw, kept));
    } else {
      GoesDown(limits, mid, SP.Crash);
    }
  }

  lemma TidyAgrees(limits: Limits, s: System, x: Step)
    requires Agree(limits, s) && x.Tidy? && ValidStep(x)
    ensures Agree(limits, Both(limits, s, x))
  {
    hide SP.Advance, Advances, RawLog, CommitAll, SP.ValidEvent;
    RunNone(limits, s.w, Stop);
    OneEvent(limits, s.r, x.event);
    if s.w.live.Some? {
      TidyFacts(limits, s.r, x.event);
      var p := SP.Advance(limits, s.r, x.event).machine.process.value;
      var e := Compaction(!p.journalOpen, p.writeFailed);
      RunNone(limits, s.w, e);
      assert AppliedLog(Next(limits, s.w, e)) == AppliedLog(s.w);
    }
  }

  lemma DownAgrees(limits: Limits, s: System, x: Step)
    requires Agree(limits, s) && x.Down? && ValidStep(x)
    ensures Agree(limits, Both(limits, s, x))
  {
    hide SP.Advance, Advances, RawLog, CommitAll, SP.ValidEvent;
    GoesDown(limits, s.r, x.event);
    OneEvent(limits, s.r, x.event);
    RunNone(limits, s.w, Stop);
  }

  lemma QueryAgrees(limits: Limits, s: System, x: Step)
    requires Agree(limits, s) && x.Query?
    ensures Agree(limits, Both(limits, s, x))
  {
    hide SP.Advance, Advances, RawLog, CommitAll, PlanSpec;
    OneEvent(limits, s.r, SP.Crash);
    RunNone(limits, s.w, Ask(x.request));
    assert AppliedLog(Next(limits, s.w, Ask(x.request))) == AppliedLog(s.w);
  }

  lemma OperateStepAgrees(limits: Limits, s: System, x: Step)
    requires Agree(limits, s) && Safe(limits, s.w) && Kept(limits, s.w) && x.Operate? && ValidStep(x)
             && limits.maxTransitions >= 1
    ensures Agree(limits, Both(limits, s, x))
  {
    hide Safe, SP.Advance, Advances, RawLog, CommitAll, EntriesOf, TypedOp, Held, AllStorable, AllAccepted, Perform,
         OperateSide;
    var e := Do(x.op, x.cut, x.fate);
    RunNone(limits, s.w, e);
    var entries := Handed(limits, s.w, x.op);
    if s.w.live.None? || (x.op.DispatchPlan? && !Held(s.w.plans, x.op.plan)) {
      NothingHanded(limits, s, x.cut, x.fate, x.kept);
    } else if s.w.failed || s.w.closed {
      NothingTaken(limits, s, x.op, entries, x.cut, x.fate, x.kept);
    } else {
      WorldValid(limits, s.w);
      if x.op.DispatchPlan? { HeldIsStorable(s.w, x.op.plan); }
      OpStorable(limits, Memory(limits, s.w), s.w.live.value, x.op);
      OperateAgrees(limits, s, s.w.live.value, x.op, entries, x.cut, x.fate, x.kept);
    }
  }

  lemma NothingHanded(limits: Limits, s: System, cut: nat, fate: Fate, kept: nat)
    ensures Advances(limits, s.r, OperateSide(limits, s.w, [], cut, fate, kept)) == s.r
  {
    hide SP.Advance;
    NoAppends(limits, s.r, EMPTY);
  }

  lemma NothingTaken(limits: Limits, s: System, op: Op, entries: seq<Entry>, cut: nat, fate: Fate, kept: nat)
    requires Agree(limits, s) && (s.w.failed || s.w.closed)
    ensures Agree(limits, System(Perform(limits, s.w, op, entries, cut, fate),
                                 Advances(limits, s.r, OperateSide(limits, s.w, entries, cut, fate, kept))))
  {
    hide SP.Advance, RawLog, CommitAll, Perform;
    FailingChangesNothing(limits, s.w, op, entries, cut, fate);
    assert entries[..0] == [];
    NoAppends(limits, s.r, EMPTY);
    assert AppliedLog(s.w.(handed := s.w.handed + |entries|)) == AppliedLog(s.w);
  }

  // ---------------------------------------------------------------- every run of the system

  predicate ValidSteps(steps: seq<Step>) {
    forall i :: 0 <= i < |steps| ==> ValidStep(steps[i])
  }

  /** What holds of the system between any two steps. */
  ghost predicate Sound(limits: Limits, steps: seq<Step>) {
    var s := Runs(limits, steps);
    && Agree(limits, s) && Safe(limits, s.w) && Kept(limits, s.w)
    && s.r == SP.Execute(limits, StoreTrace(limits, steps)) && SP.ValidEvents(StoreTrace(limits, steps))
    && s.w == RunFrom(limits, INITIAL, EngineTrace(limits, steps)) && TypedEvents(EngineTrace(limits, steps))
  }

  lemma StepAgrees(limits: Limits, s: System, x: Step, trace: seq<SP.Event>)
    requires Agree(limits, s) && Safe(limits, s.w) && Kept(limits, s.w) && Traced(limits, s.r, trace)
    requires ValidStep(x) && limits.maxTransitions >= 1
    ensures Agree(limits, Both(limits, s, x))
  {
    hide Agree, Safe, Kept, Both, Traced;
    match x {
      case Begin(_, _, _, _, _, _, _) =>
        if s.w.live.None? { BeginAgrees(limits, s, x, trace); } else { BeginIgnored(limits, s, x); }
      case Query(_) => QueryAgrees(limits, s, x);
      case Operate(_, _, _, _) => OperateStepAgrees(limits, s, x);
      case Tidy(_) => TidyAgrees(limits, s, x);
      case Down(_) => DownAgrees(limits, s, x);
    }
  }

  lemma BeginIgnored(limits: Limits, s: System, x: Step)
    requires Agree(limits, s) && x.Begin? && s.w.live.Some?
    ensures Agree(limits, Both(limits, s, x))
  {
    hide SP.Advance, Advances, RawLog, CommitAll;
    OneEvent(limits, s.r, SP.Crash);
    RunNone(limits, s.w, Stop);
  }

  lemma EngineSideTyped(limits: Limits, s: System, x: Step)
    requires ValidStep(x)
    ensures TypedEvents(EngineSide(limits, s, x))
  {
    hide SP.Advance, TypedOp, TypedPolicy, OptionalId;
  }

  lemma {:induction false} AppendsValid(entries: seq<Entry>)
    ensures SP.ValidEvents(Appends(entries))
    decreases |entries|
  {
    hide PayloadOf;
    if entries != [] { AppendsValid(entries[..|entries| - 1]); }
  }

  lemma ValidTwo(a: seq<SP.Event>, b: seq<SP.Event>)
    requires SP.ValidEvents(a) && SP.ValidEvents(b)
    ensures SP.ValidEvents(a + b)
  {
    hide SP.ValidEvent;
  }

  lemma StoreSideValid(limits: Limits, s: System, x: Step)
    requires ValidStep(x)
    ensures SP.ValidEvents(StoreSide(limits, s, x))
  {
    hide SP.Advance, TypedOp, TypedPolicy, OptionalId, Appends, OperateSide, BeginSide, Boot, TablesOf, Handed;
    match x {
      case Begin(supplied, boot, clock, cut, kept, store, now) =>
        var effect := Boot(limits, TablesOf(limits, s.w), supplied, boot, clock);
        BeginSideValid(limits, effect, cut, kept);
        ValidTwo([SP.Open(store, now)], BeginSide(limits, effect, cut, kept));
      case Operate(op, cut, fate, kept) => OperateSideValid(limits, s.w, Handed(limits, s.w, op), cut, fate, kept);
      case _ =>
    }
  }

  lemma BeginSideValid(limits: Limits, effect: Effect<Live>, cut: nat, kept: nat)
    ensures SP.ValidEvents(BeginSide(limits, effect, cut, kept))
  {
    hide Appends, Reach, PayloadOf, Short;
    AppendsValid(effect.entries[..Smaller(cut, Reach(limits, effect.entries))]);
  }

  lemma OperateSideValid(limits: Limits, w: World, entries: seq<Entry>, cut: nat, fate: Fate, kept: nat)
    ensures SP.ValidEvents(OperateSide(limits, w, entries, cut, fate, kept))
  {
    hide Appends, Reach, PayloadOf, Short, ImageSize;
    AppendsValid(Prefix(entries, Smaller(cut, Room(limits, w, entries))));
  }

  lemma {:induction false} RunAppend(limits: Limits, w: World, a: seq<Event>, b: seq<Event>)
    ensures RunFrom(limits, w, a + b) == RunFrom(limits, RunFrom(limits, w, a), b)
    decreases |a|
  {
    hide Next;
    if a == [] {
      assert a + b == b;
    } else {
      assert (a + b)[1..] == a[1..] + b;
      RunAppend(limits, Next(limits, w, a[0]), a[1..], b);
    }
  }

  lemma TypedTwo(a: seq<Event>, b: seq<Event>)
    requires TypedEvents(a) && TypedEvents(b)
    ensures TypedEvents(a + b)
  {
    hide TypedEvent;
  }

  lemma SoundStep(limits: Limits, steps: seq<Step>, x: Step)
    requires Sound(limits, steps) && ValidStep(x) && limits.maxTransitions >= 1 && limits.maxJournalPayloadBytes < TWO32
    requires |StoreTrace(limits, steps)| < TWO64 - 3 && Both(limits, Runs(limits, steps), x).w.handed + 1 < TWO64
    ensures Sound(limits, steps + [x])
  {
    hide Runs, Agree, Safe, Kept, EngineSide, StoreSide, RunFrom, SP.Execute, SP.ValidEvents, TypedEvents, Advances,
         StoreTrace, EngineTrace;
    var s := Runs(limits, steps);
    LastStep(limits, steps, x);
    StepAgrees(limits, s, x, StoreTrace(limits, steps));
    EngineSideTyped(limits, s, x);
    RunIsSafe(limits, s.w, EngineSide(limits, s, x));
    RunIsStorable(limits, s.w, EngineSide(limits, s, x));
    StoreSideValid(limits, s, x);
    ExecuteSplit(limits, StoreTrace(limits, steps), StoreSide(limits, s, x));
    ValidTwo(StoreTrace(limits, steps), StoreSide(limits, s, x));
    RunAppend(limits, INITIAL, EngineTrace(limits, steps), EngineSide(limits, s, x));
    TypedTwo(EngineTrace(limits, steps), EngineSide(limits, s, x));
  }

  lemma LastStep(limits: Limits, steps: seq<Step>, x: Step)
    ensures Runs(limits, steps + [x]) == Both(limits, Runs(limits, steps), x)
    ensures StoreTrace(limits, steps + [x]) == StoreTrace(limits, steps) + StoreSide(limits, Runs(limits, steps), x)
    ensures EngineTrace(limits, steps + [x]) == EngineTrace(limits, steps) + EngineSide(limits, Runs(limits, steps), x)
  {
    hide Both, EngineSide, StoreSide;
    assert (steps + [x])[..|steps|] == steps;
  }

  lemma BothHands(limits: Limits, s: System, x: Step)
    ensures s.w.handed <= Both(limits, s, x).w.handed
  {
    hide EngineSide, StoreSide, RunFrom, Advances;
    RunHands(limits, s.w, EngineSide(limits, s, x));
  }

  /** Few enough records and events for every counter. */
  predicate InRange(limits: Limits, steps: seq<Step>) {
    |StoreTrace(limits, steps)| < TWO64 - 3 && Runs(limits, steps).w.handed + 1 < TWO64
  }

  lemma InRangeBefore(limits: Limits, steps: seq<Step>, x: Step)
    requires InRange(limits, steps + [x])
    ensures InRange(limits, steps) && Both(limits, Runs(limits, steps), x).w.handed + 1 < TWO64
  {
    hide Runs, Both, StoreSide, EngineSide, StoreTrace, EngineTrace;
    LastStep(limits, steps, x);
    BothHands(limits, Runs(limits, steps), x);
  }

  /** Every run of the system is one run of the engine and one run of the store, with one log between them. */
  lemma {:induction false} SystemIsSound(limits: Limits, steps: seq<Step>)
    requires ValidSteps(steps) && limits.maxTransitions >= 1 && limits.maxJournalPayloadBytes < TWO32
    requires InRange(limits, steps)
    ensures Sound(limits, steps)
    decreases |steps|
  {
    hide InRange, Sound, ValidStep, Runs, Both, StoreTrace, EngineTrace;
    if steps == [] {
      NothingSound(limits);
    } else {
      var front, x := steps[..|steps| - 1], steps[|steps| - 1];
      assert steps == front + [x];
      InRangeBefore(limits, front, x);
      SystemIsSound(limits, front);
      TraceInRange(limits, front);
      SoundStep(limits, front, x);
    }
  }

  lemma TraceInRange(limits: Limits, steps: seq<Step>)
    requires InRange(limits, steps)
    ensures |StoreTrace(limits, steps)| < TWO64 - 3
  {
    hide Runs, StoreTrace;
  }

  lemma NothingSound(limits: Limits)
    ensures Sound(limits, [])
  {
    hide SP.Advance, Next;
    InitialSafe(limits);
    InitialKept(limits);
  }

  /** One log on both sides, the process's tables while it is up, and what a reopen would hold. */
  ghost predicate Survives(limits: Limits, s: System) {
    hide RawLog, Memory, TablesOf, ReopensAs;
    && s.r.log == RawLog(s.w.log) && (s.w.live.Some? <==> s.r.machine.process.Some?)
    && (s.w.live.Some? ==> s.r.machine.process.value.state.tables == Memory(limits, s.w))
    && ReopensAs(limits, s.r.machine.disk, TablesOf(limits, s.w))
  }

  /** However the process stops, fails, compacts and reopens: while it is up its tables are those its own records give,
      and a store that reopens holds exactly the tables of the engine's log. */
  lemma RunSurvivesRestart(limits: Limits, steps: seq<Step>)
    requires ValidSteps(steps) && limits.maxTransitions >= 1 && limits.maxJournalPayloadBytes < TWO32
    requires InRange(limits, steps)
    ensures Survives(limits, Runs(limits, steps))
  {
    hide Runs, RunFrom, SP.Execute, SP.ValidEvents, Safe, Kept, TablesOf, Memory, StoreTrace, EngineTrace, TypedEvents,
         RawLog, ReopensAs, InRange;
    SystemIsSound(limits, steps);
    TraceInRange(limits, steps);
    var s := Runs(limits, steps);
    SameLogSameTables(limits, EngineTrace(limits, steps), s.w, StoreTrace(limits, steps), s.r);
  }
}
