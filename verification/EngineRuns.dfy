/** Every run of the engine: operations, restarts, and stops after any record of an operation. */
module EngineRuns {
  import opened Bytes
  import opened Ordering
  import opened Model
  import opened DocumentCodec
  import opened LineageCodec
  import opened StoreState
  import opened Drift
  import opened Explain
  import opened Planner
  import opened PlanTheorems
  import opened Replan
  import opened Engine

  // ---------------------------------------------------------------- what the log says has happened

  /** The history a log tells: nothing is ever evicted from it. `pending` is an attempt that has just ended. */
  datatype History = History(
    epoch: nat, lineage: map<nat, Attempt>, settled: map<nat, Outcome>, pending: Option<nat>, seen: set<Observation>)

  const NOTHING: History := History(0, map[], map[], None, {})

  function Track(h: History, e: Entry): History {
    match e
    case EpochAdvance(n) => h.(epoch := n, pending := None)
    case ObservationCommit(o) => h.(seen := h.seen + {o})
    case AttemptIssued(a) => h.(lineage := h.lineage[a.id := a])
    case AttemptMoved(a) => h.(lineage := h.lineage[a.id := a],
                               pending := if IsTerminal(a.state) then Some(a.id) else None)
    case OutcomeCommit(o) => h.(settled := h.settled[o.attempt := o], pending := None)
    case _ => h
  }

  function TrackAll(h: History, log: seq<Entry>): History
    decreases |log|
  {
    if log == [] then h else TrackAll(Track(h, log[0]), log[1..])
  }

  predicate SameIdentity(a: Attempt, b: Attempt) {
    b == a.(state := b.state, transitions := b.transitions)
  }

  predicate KeyFree(h: History, key: Digest) {
    forall id :: id in h.lineage && IsLive(h.lineage[id]) ==> h.lineage[id].key != key
  }

  /** The outcome names this attempt and the state it ended in. */
  predicate Describes(o: Outcome, a: Attempt) {
    && o.attempt == a.id && o.key == a.key && o.scope == a.scope && o.subject == a.subject && o.action == a.action
    && o.epoch == a.epoch && o.boot == a.boot && o.terminalState == a.state && o.verified == (a.state == Verified)
    && (o.verified ==> !o.ambiguous) && (o.terminalState == Interrupted ==> o.ambiguous)
  }

  /** The attempt's own transition list ends with this move, made in this epoch; only a restart that finds the list
      full leaves it as it was. */
  predicate Stepped(a: Attempt, b: Attempt, epoch: nat) {
    || (b.transitions == a.transitions && (b.state.Abandoned? || b.state.Interrupted?))
    || (b.transitions != []
        && var last := b.transitions[|b.transitions| - 1];
        last.from == a.state && last.to == b.state && last.epoch == epoch)
  }

  /** An observation of the outcome's scope, newer than the one the action used. */
  predicate Backs(x: Observation, o: Outcome, a: Attempt) {
    x.scope == o.scope && x.generation == o.verifiedGeneration && a.authority.observationGeneration < x.generation
  }

  /** The attempt's last move took it from applied to verified or failed. */
  predicate EndedApplied(a: Attempt) {
    && (a.state.Verified? || a.state.Failed?) && a.transitions != []
    && var last := a.transitions[|a.transitions| - 1]; last.from == Applied && last.to == a.state
  }

  /** What an outcome that names a generation rests on: an applied attempt of this incarnation, and an observation. */
  ghost predicate Evidenced(o: Outcome, a: Attempt, epoch: nat, seen: set<Observation>) {
    a.epoch == epoch && EndedApplied(a) && exists x :: x in seen && Backs(x, o, a)
  }

  /** The authority is bound to exactly this observation. */
  predicate Cites(a: Authority, x: Observation) {
    && a.observation == x.observation && a.observationGeneration == x.generation && a.reporter == x.reporter
    && a.observationDigest == x.digest && a.observationEpoch == x.receivedEpoch
    && a.observationReceivedMs == x.receivedMs
  }

  ghost predicate Supported(a: Authority, scope: Id, seen: set<Observation>) {
    exists x :: x in seen && x.scope == scope && Cites(a, x)
  }

  /** What each record may say, given everything before it. */
  ghost predicate Legal(h: History, e: Entry) {
    && (h.pending.Some? ==> e.EpochAdvance? || (e.OutcomeCommit? && e.outcome.attempt == h.pending.value))
    && match e
       case EpochAdvance(n) => h.epoch < n
       case AttemptIssued(a) =>
         && a.id !in h.lineage && a.state == Dispatched && KeyFree(h, a.key)
         && a.epoch == h.epoch && a.authority.epoch == a.epoch && a.authority.boot == a.boot
         && a.authority.observationEpoch == a.epoch && Supported(a.authority, a.scope, h.seen)
       case AttemptMoved(a) =>
         && a.id in h.lineage && SameIdentity(h.lineage[a.id], a) && TransitionLegal(h.lineage[a.id].state, a.state)
         && Stepped(h.lineage[a.id], a, h.epoch)
         && (a.epoch != h.epoch ==> a.state.Abandoned? || a.state.Interrupted?)
       case OutcomeCommit(o) =>
         && h.pending == Some(o.attempt) && o.attempt !in h.settled
         && o.attempt in h.lineage && Describes(o, h.lineage[o.attempt])
         && (o.verifiedGeneration != 0 ==> Evidenced(o, h.lineage[o.attempt], h.epoch, h.seen))
       case _ => true
  }

  /** Every record of the log is legal where it stands. */
  ghost predicate Lawful(h: History, log: seq<Entry>)
    decreases |log|
  {
    log == [] || (Legal(h, log[0]) && Lawful(Track(h, log[0]), log[1..]))
  }

  // ---------------------------------------------------------------- how the tables relate to the history

  type Lineage = map<nat, Attempt>

  /** Both open, under one key. */
  predicate Clash(a: Attempt, b: Attempt) {
    IsLive(a) && IsLive(b) && a.key == b.key
  }

  ghost predicate OneLivePerKey(lineage: Lineage) {
    forall a, b :: a in lineage && b in lineage && Clash(lineage[a], lineage[b]) ==> a == b
  }

  ghost predicate SoundAttempt(a: Attempt, id: nat, epoch: nat, next: nat) {
    id < next && a.id == id && a.epoch <= epoch && a.state != InvalidState
  }

  ghost predicate SoundLineage(lineage: Lineage, epoch: nat, next: nat) {
    forall id :: id in lineage ==> SoundAttempt(lineage[id], id, epoch, next)
  }

  ghost predicate Ended(lineage: Lineage, id: nat) {
    id in lineage && IsTerminal(lineage[id].state)
  }

  ghost predicate SoundOutcomes(lineage: Lineage, settled: map<nat, Outcome>, pending: Option<nat>) {
    && (forall id :: id in settled ==> Ended(lineage, id))
    && (pending.Some? ==> Ended(lineage, pending.value) && pending.value !in settled)
  }

  /** The attempt table holds the lineage, minus evicted attempts, none of which was open. */
  ghost predicate AttemptsLinked(attempts: map<nat, Attempt>, lineage: Lineage) {
    && (forall id :: id in attempts ==> id in lineage && attempts[id] == lineage[id])
    && (forall id :: id in lineage && IsLive(lineage[id]) ==> id in attempts)
  }

  ghost predicate StreamLinked(stream: seq<Observation>, scope: Id, seen: set<Observation>) {
    forall o :: o in stream ==> o in seen && o.scope == scope
  }

  ghost predicate StreamsLinked(observations: map<Id, seq<Observation>>, seen: set<Observation>) {
    forall scope :: scope in observations ==> StreamLinked(observations[scope], scope, seen)
  }

  ghost predicate Linked(t: Tables, h: History) {
    && t.lastEpoch == h.epoch && 0 < t.nextAttempt
    && AttemptsLinked(t.attempts, h.lineage) && OneLivePerKey(h.lineage)
    && SoundLineage(h.lineage, h.epoch, t.nextAttempt) && SoundOutcomes(h.lineage, h.settled, h.pending)
    && StreamsLinked(t.observations, h.seen)
    && (h.lineage != map[] ==> t.policy.Some?)
  }

  ghost predicate OwnAttempts(attempts: map<nat, Attempt>, live: Live) {
    forall id :: id in attempts && IsLive(attempts[id]) ==>
                   attempts[id].epoch == live.epoch && attempts[id].boot == live.boot
  }

  ghost predicate NoneRevoked(attempts: map<nat, Attempt>, fences: map<Id, Fence>) {
    forall id, f :: id in attempts && f in fences ==> !Revoked(fences[f], attempts[id])
  }

  /** What an incarnation that can write relies on: every open attempt is its own. */
  ghost predicate Serving(t: Tables, h: History, live: Live) {
    t.lastEpoch == live.epoch && t.policy.Some? && h.pending.None? && OwnAttempts(t.attempts, live)
  }

  // ---------------------------------------------------------------- one record

  lemma TrimLinked(limits: Limits, attempts: map<nat, Attempt>, lineage: Lineage)
    requires AttemptsLinked(attempts, lineage)
    ensures AttemptsLinked(TrimmedAttempts(limits, attempts), lineage)
  {
    hide IsTerminal;
  }

  lemma PutLinked(limits: Limits, attempts: map<nat, Attempt>, lineage: Lineage, a: Attempt)
    requires AttemptsLinked(attempts, lineage)
    ensures AttemptsLinked(TrimmedAttempts(limits, attempts[a.id := a]), lineage[a.id := a])
  {
    hide IsTerminal, TrimmedAttempts;
    TrimLinked(limits, attempts[a.id := a], lineage[a.id := a]);
  }

  lemma PutSound(lineage: Lineage, settled: map<nat, Outcome>, epoch: nat, next: nat, a: Attempt, next': nat)
    requires SoundLineage(lineage, epoch, next) && SoundOutcomes(lineage, settled, None)
    requires SoundAttempt(a, a.id, epoch, next') && next <= next'
    requires !Ended(lineage, a.id)
    ensures SoundLineage(lineage[a.id := a], epoch, next')
    ensures SoundOutcomes(lineage[a.id := a], settled, if IsTerminal(a.state) then Some(a.id) else None)
  {
    hide IsTerminal;
    forall id | id in settled ensures Ended(lineage[a.id := a], id) {
      assert Ended(lineage, id);
    }
  }

  lemma IssueOne(lineage: Lineage, a: Attempt)
    requires OneLivePerKey(lineage) && (forall id :: id in lineage && IsLive(lineage[id]) ==> lineage[id].key != a.key)
    ensures OneLivePerKey(lineage[a.id := a])
  {
    hide IsLive;
  }

  lemma MoveOne(lineage: Lineage, a: Attempt)
    requires OneLivePerKey(lineage) && a.id in lineage && IsLive(lineage[a.id]) && lineage[a.id].key == a.key
    ensures OneLivePerKey(lineage[a.id := a])
  {
    hide IsLive;
  }

  lemma IssueLinked(limits: Limits, t: Tables, h: History, a: Attempt)
    requires Linked(t, h) && Legal(h, AttemptIssued(a)) && t.policy.Some?
    requires a.id == t.nextAttempt && a.id + 1 < TWO64
    ensures Linked(AfterAttempt(limits, t, a), Track(h, AttemptIssued(a)))
  {
    hide TrimmedAttempts, AttemptsLinked, OneLivePerKey, SoundLineage, SoundOutcomes, StreamsLinked;
    PutLinked(limits, t.attempts, h.lineage, a);
    PutSound(h.lineage, h.settled, h.epoch, t.nextAttempt, a, a.id + 1);
    IssueOne(h.lineage, a);
  }

  lemma MoveLinked(limits: Limits, t: Tables, h: History, a: Attempt)
    requires Linked(t, h) && Legal(h, AttemptMoved(a))
    ensures Linked(AfterAttempt(limits, t, a), Track(h, AttemptMoved(a)))
  {
    hide TrimmedAttempts, AttemptsLinked, OneLivePerKey, SoundOutcomes, StreamsLinked;
    assert IsLive(h.lineage[a.id]) && SoundAttempt(h.lineage[a.id], a.id, h.epoch, t.nextAttempt);
    PutLinked(limits, t.attempts, h.lineage, a);
    PutSound(h.lineage, h.settled, h.epoch, t.nextAttempt, a, t.nextAttempt);
    MoveOne(h.lineage, a);
  }

  lemma OutcomeLinked(limits: Limits, t: Tables, h: History, o: Outcome)
    requires Linked(t, h) && Legal(h, OutcomeCommit(o))
    ensures Linked(Apply(limits, t, OutcomeCommit(o)), Track(h, OutcomeCommit(o)))
  {
    hide KeepLast, Ended, AttemptsLinked, OneLivePerKey, SoundLineage, StreamsLinked;
  }

  lemma StreamGrows(limits: Limits, observations: map<Id, seq<Observation>>, seen: set<Observation>, o: Observation)
    requires StreamsLinked(observations, seen)
    ensures var stream := KeepLast(GetOr(observations, o.scope, []) + [o], limits.maxObservationsPerScope);
            StreamsLinked(observations[o.scope := stream], seen + {o})
  {
    var stream := GetOr(observations, o.scope, []) + [o];
    var kept := KeepLast(stream, limits.maxObservationsPerScope);
    forall x | x in kept ensures x in seen + {o} && x.scope == o.scope {
      assert x in stream;
      if x != o { assert StreamLinked(observations[o.scope], o.scope, seen); }
    }
    forall scope | scope in observations && scope != o.scope
      ensures StreamLinked(observations[scope], scope, seen + {o}) {
      assert StreamLinked(observations[scope], scope, seen);
    }
  }

  lemma ObservationLinked(limits: Limits, t: Tables, h: History, o: Observation)
    requires Linked(t, h)
    ensures Linked(Apply(limits, t, ObservationCommit(o)), Track(h, ObservationCommit(o)))
  {
    hide KeepLast, SoundOutcomes, AttemptsLinked, OneLivePerKey, SoundLineage, StreamsLinked;
    StreamGrows(limits, t.observations, h.seen, o);
  }

  lemma EpochLinked(limits: Limits, t: Tables, h: History, n: nat)
    requires Linked(t, h) && Legal(h, EpochAdvance(n))
    ensures Linked(Apply(limits, t, EpochAdvance(n)), Track(h, EpochAdvance(n)))
  {
    hide Ended, AttemptsLinked, OneLivePerKey, StreamsLinked;
    forall id | id in h.lineage ensures SoundAttempt(h.lineage[id], id, n, t.nextAttempt) {
      assert SoundAttempt(h.lineage[id], id, h.epoch, t.nextAttempt);
    }
  }

  lemma CommitLinked(limits: Limits, t: Tables, h: History, e: Entry)
    requires Linked(t, h) && Legal(h, e)
    requires e.AttemptIssued? ==> t.policy.Some? && e.issued.id == t.nextAttempt && e.issued.id + 1 < TWO64
    ensures Linked(Commit(limits, t, e), Track(h, e))
  {
    hide IsTerminal, Linked, AfterAttempt, ValidFence;
    match e {
      case AttemptIssued(a) => IssueLinked(limits, t, h, a);
      case AttemptMoved(a) => MoveLinked(limits, t, h, a);
      case OutcomeCommit(o) => OutcomeLinked(limits, t, h, o);
      case ObservationCommit(o) => ObservationLinked(limits, t, h, o);
      case EpochAdvance(n) => EpochLinked(limits, t, h, n);
      case _ => OtherLinked(limits, t, h, e);
    }
  }

  lemma OtherLinked(limits: Limits, t: Tables, h: History, e: Entry)
    requires Linked(t, h)
    requires e.StoreHeaderEntry? || e.PolicyPut? || e.IntentCommit? || e.FencePut? || e.FenceClear?
             || e.LineageTrimEntry?
    ensures Linked(Commit(limits, t, e), Track(h, e))
  {
    hide ValidFence, KeepLast, SoundOutcomes, AttemptsLinked, OneLivePerKey, SoundLineage, StreamsLinked;
  }

  // ---------------------------------------------------------------- stretches of records

  /** Every record of the stretch is legal where it falls, and new attempts take the next identity. */
  ghost predicate Admits(limits: Limits, t: Tables, h: History, entries: seq<Entry>)
    decreases |entries|
  {
    entries == [] ||
    (var e := entries[0];
     && Legal(h, e)
     && (e.AttemptIssued? ==> t.policy.Some? && e.issued.id == t.nextAttempt && e.issued.id + 1 < TWO64)
     && Admits(limits, Commit(limits, t, e), Track(h, e), entries[1..]))
  }

  lemma {:induction false} AdmitsLinked(limits: Limits, t: Tables, h: History, entries: seq<Entry>, n: nat)
    requires Linked(t, h) && Admits(limits, t, h, entries) && n <= |entries|
    ensures Linked(CommitAll(limits, t, entries[..n]), TrackAll(h, entries[..n])) && Lawful(h, entries[..n])
    decreases n
  {
    hide Linked, Legal, Commit, Track;
    if n > 0 {
      var e := entries[0];
      CommitLinked(limits, t, h, e);
      AdmitsLinked(limits, Commit(limits, t, e), Track(h, e), entries[1..], n - 1);
      assert entries[..n][1..] == entries[1..][..n - 1];
    }
  }

  lemma {:induction false} AdmitsAppend(limits: Limits, t: Tables, h: History, a: seq<Entry>, b: seq<Entry>)
    requires Admits(limits, t, h, a) && Admits(limits, CommitAll(limits, t, a), TrackAll(h, a), b)
    ensures Admits(limits, t, h, a + b)
    ensures CommitAll(limits, t, a + b) == CommitAll(limits, CommitAll(limits, t, a), b)
    ensures TrackAll(h, a + b) == TrackAll(TrackAll(h, a), b)
    decreases |a|
  {
    hide Legal, Commit, Track;
    if a == [] {
      assert a + b == b;
    } else {
      assert (a + b)[1..] == a[1..] + b;
      AdmitsAppend(limits, Commit(limits, t, a[0]), Track(h, a[0]), a[1..], b);
    }
  }

  /** Identities are handed out one at a time. */
  lemma {:induction false} AdmitsCounts(limits: Limits, t: Tables, h: History, entries: seq<Entry>, n: nat)
    requires Linked(t, h) && Admits(limits, t, h, entries) && n <= |entries|
    ensures CommitAll(limits, t, entries[..n]).nextAttempt <= t.nextAttempt + n
    decreases n
  {
    hide Linked, Legal, Commit, Track;
    if n > 0 {
      var e := entries[0];
      CommitLinked(limits, t, h, e);
      CommitCounts(limits, t, h, e);
      AdmitsCounts(limits, Commit(limits, t, e), Track(h, e), entries[1..], n - 1);
      assert entries[..n][1..] == entries[1..][..n - 1];
    }
  }

  lemma CommitCounts(limits: Limits, t: Tables, h: History, e: Entry)
    requires Linked(t, h) && Legal(h, e)
    requires e.AttemptIssued? ==> e.issued.id == t.nextAttempt && e.issued.id + 1 < TWO64
    ensures Commit(limits, t, e).nextAttempt <= t.nextAttempt + 1
  {
    hide TrimmedAttempts, KeepLast, ValidFence, AttemptsLinked, OneLivePerKey, SoundOutcomes, StreamsLinked;
    if e.AttemptMoved? {
      assert SoundAttempt(h.lineage[e.moved.id], e.moved.id, h.epoch, t.nextAttempt);
    }
  }

  // ---------------------------------------------------------------- ending one attempt

  /** The records that end an attempt without its caller: a legal move, then its outcome. */
  lemma CloseShape(limits: Limits, live: Live, closing: Closing, a: Attempt, nowMs: int)
    requires IsLive(a) && a.state != InvalidState
    ensures var es := CloseEntries(limits, live, closing, a, nowMs);
            && |es| == 2 && es[0].AttemptMoved? && es[1].OutcomeCommit?
            && Ends(a, es[0].moved, es[1].outcome) && Stepped(a, es[0].moved, live.epoch)
            && (closing == ByRestart ==> es[0].moved.state.Abandoned? || es[0].moved.state.Interrupted?)
            && es[1].outcome.verifiedGeneration == 0
  {}

  predicate Ends(a: Attempt, moved: Attempt, o: Outcome) {
    SameIdentity(a, moved) && TransitionLegal(a.state, moved.state) && IsTerminal(moved.state) && Describes(o, moved)
  }

  lemma EndAdmits(limits: Limits, t: Tables, h: History, moved: Attempt, o: Outcome)
    requires Linked(t, h) && h.pending.None? && moved.id in h.lineage && Ends(h.lineage[moved.id], moved, o)
    requires Stepped(h.lineage[moved.id], moved, h.epoch)
    requires moved.epoch != h.epoch ==> moved.state.Abandoned? || moved.state.Interrupted?
    requires o.verifiedGeneration != 0 ==> Evidenced(o, moved, h.epoch, h.seen)
    ensures Admits(limits, t, h, [AttemptMoved(moved), OutcomeCommit(o)])
    ensures var h' := TrackAll(h, [AttemptMoved(moved), OutcomeCommit(o)]);
            h' == h.(lineage := h.lineage[moved.id := moved], settled := h.settled[moved.id := o])
  {
    hide Commit, AttemptsLinked, OneLivePerKey, SoundLineage, StreamsLinked;
    var es := [AttemptMoved(moved), OutcomeCommit(o)];
    var h1 := Track(h, es[0]);
    forall id | id in h.settled ensures id != moved.id { assert Ended(h.lineage, id); }
    assert Legal(h, es[0]) && Legal(h1, es[1]);
    assert es[1..] == [es[1]] && es[1..][1..] == [];
    EmptyAdmits(limits, Commit(limits, Commit(limits, t, es[0]), es[1]), Track(h1, es[1]));
    assert Admits(limits, Commit(limits, t, es[0]), h1, es[1..]);
    assert TrackAll(h1, es[1..]) == Track(h1, es[1]);
  }

  lemma EmptyAdmits(limits: Limits, t: Tables, h: History)
    ensures Admits(limits, t, h, [])
  {}

  /** Records about attempts leave the rest of the tables alone. */
  predicate SameSetting(t: Tables, u: Tables) {
    t.lastEpoch == u.lastEpoch && t.policy == u.policy && t.fences == u.fences && t.intents == u.intents
    && t.observations == u.observations
  }

  lemma EndSetting(limits: Limits, t: Tables, moved: Attempt, o: Outcome)
    ensures SameSetting(t, CommitAll(limits, t, [AttemptMoved(moved), OutcomeCommit(o)]))
  {
    hide TrimmedAttempts, KeepLast;
    var es := [AttemptMoved(moved), OutcomeCommit(o)];
    assert es[1..] == [es[1]] && es[1..][1..] == [];
    var t1 := Commit(limits, t, es[0]);
    assert CommitAll(limits, t1, es[1..]) == CommitAll(limits, Commit(limits, t1, es[1]), es[1..][1..]);
  }

  ghost predicate AllOpen(lineage: Lineage, attempts: map<nat, Attempt>, ids: seq<nat>) {
    forall id :: id in ids ==> id in attempts && id in lineage && lineage[id] == attempts[id] && IsLive(lineage[id])
  }

  /** Ending the first of a list of attempts. */
  lemma CloseFirst(limits: Limits, t: Tables, h: History, live: Live, closing: Closing,
                   attempts: map<nat, Attempt>, ids: seq<nat>, nowMs: int) returns (moved: Attempt)
    requires Closable(t, h, live, closing, attempts, ids) && ids != []
    ensures var es := CloseEntries(limits, live, closing, attempts[ids[0]], nowMs);
            var t1, h1 := CommitAll(limits, t, es), TrackAll(h, es);
            && |es| == 2 && es[0] == AttemptMoved(moved) && Admits(limits, t, h, es) && SameSetting(t, t1)
            && h1.epoch == h.epoch && h1.lineage == h.lineage[moved.id := moved]
            && Closable(t1, h1, live, closing, attempts, ids[1..])
    ensures moved.id == ids[0] && moved.id in h.lineage && !IsLive(moved)
  {
    hide CloseEntries, Legal, Commit, Track, SoundOutcomes, AttemptsLinked, OneLivePerKey, StreamsLinked, CommitAll,
         TrackAll, Admits;
    var a, rest := attempts[ids[0]], ids[1..];
    var es := CloseEntries(limits, live, closing, a, nowMs);
    assert ids[0] in ids && SoundAttempt(h.lineage[ids[0]], ids[0], h.epoch, t.nextAttempt);
    CloseShape(limits, live, closing, a, nowMs);
    moved := es[0].moved;
    var o := es[1].outcome;
    assert es == [AttemptMoved(moved), OutcomeCommit(o)];
    EndAdmits(limits, t, h, moved, o);
    EndSetting(limits, t, moved, o);
    AdmitsLinked(limits, t, h, es, 2);
    assert es[..2] == es;
    assert forall id :: id in rest ==> id in ids && id != ids[0];
  }

  /** These attempts are open and may be ended now. */
  ghost predicate Closable(t: Tables, h: History, live: Live, closing: Closing, attempts: map<nat, Attempt>,
                           ids: seq<nat>) {
    && Linked(t, h) && h.pending.None? && AscendingIds(ids) && AllOpen(h.lineage, attempts, ids)
    && live.epoch == h.epoch
    && (closing == ByFence ==> forall id :: id in ids ==> attempts[id].epoch == h.epoch)
  }

  /** Ending a list of attempts ends exactly those. */
  lemma {:induction false} CloseAllAdmits(limits: Limits, t: Tables, h: History, live: Live, closing: Closing,
                                          attempts: map<nat, Attempt>, ids: seq<nat>, nowMs: int)
    requires Closable(t, h, live, closing, attempts, ids)
    ensures var es := CloseAll(limits, live, closing, attempts, ids, nowMs);
            var t', h' := CommitAll(limits, t, es), TrackAll(h, es);
            && Admits(limits, t, h, es) && Linked(t', h') && h'.pending.None? && h'.epoch == h.epoch
            && SameSetting(t, t') && Closed(h.lineage, h'.lineage, ids)
    decreases |ids|
  {
    hide CloseEntries, Legal, Commit, Track, Linked, IsLive;
    if ids != [] {
      var es := CloseEntries(limits, live, closing, attempts[ids[0]], nowMs);
      var moved := CloseFirst(limits, t, h, live, closing, attempts, ids, nowMs);
      var t1, h1 := CommitAll(limits, t, es), TrackAll(h, es);
      CloseAllAdmits(limits, t1, h1, live, closing, attempts, ids[1..], nowMs);
      var more := CloseAll(limits, live, closing, attempts, ids[1..], nowMs);
      AdmitsAppend(limits, t, h, es, more);
      ClosedStep(h.lineage, moved, TrackAll(h1, more).lineage, ids);
    }
  }

  /** Exactly the listed attempts have ended. */
  ghost predicate Closed(before: Lineage, after: Lineage, ids: seq<nat>) {
    && after.Keys == before.Keys
    && (forall id :: id in after && id !in ids ==> after[id] == before[id])
    && (forall id :: id in after && id in ids ==> !IsLive(after[id]))
  }

  lemma ClosedStep(before: Lineage, moved: Attempt, after: Lineage, ids: seq<nat>)
    requires ids != [] && moved.id == ids[0] && moved.id in before && !IsLive(moved) && AscendingIds(ids)
    requires Closed(before[moved.id := moved], after, ids[1..])
    ensures Closed(before, after, ids)
  {
    hide IsLive;
    assert ids[0] !in ids[1..];
    assert forall id :: id in ids <==> id == ids[0] || id in ids[1..];
  }

  // ---------------------------------------------------------------- operations

  datatype Op =
    | PutPolicy(policy: Policy, allowSame: bool)
    | CommitIntent(document: Intent)
    | RecordObservation(submission: Submission, stampMs: int, clock: int)
    | DispatchPlan(plan: Plan, clock: int)
    | Complete(completion: Completion, clock: int)
    | Verify(verification: Verification, clock: int)
    | PutFence(fence: Fence, clock: int)
    | ClearFence(id: Id)

  function EntriesOf(limits: Limits, t: Tables, live: Live, op: Op): seq<Entry> {
    match op
    case PutPolicy(p, same) => PutPolicyOp(limits, t, p, same).entries
    case CommitIntent(d) => CommitIntentOp(limits, t, d).entries
    case RecordObservation(s, at, clock) => RecordOp(limits, t, live, s, at, clock).entries
    case DispatchPlan(plan, clock) => DispatchOp(limits, t, live, plan, clock).entries
    case Complete(c, clock) => CompleteOp(limits, t, live, c, clock).entries
    case Verify(v, clock) => VerifyOp(limits, t, live, v, clock).entries
    case PutFence(f, clock) => PutFenceOp(limits, t, live, f, clock).entries
    case ClearFence(id) => ClearFenceOp(t, id).entries
  }

  /** The plan's actions are bound to the incarnation that built it and to an observation that incarnation received. */
  ghost predicate PlanSound(plan: Plan, seen: set<Observation>) {
    AllBound(plan.decisions, plan.live, seen)
  }

  ghost predicate AllBound(decisions: seq<Decision>, live: Live, seen: set<Observation>) {
    forall i :: 0 <= i < |decisions| && decisions[i].disposition == Actionable ==> BoundTo(decisions[i], live, seen)
  }

  ghost predicate BoundTo(d: Decision, live: Live, seen: set<Observation>) {
    && d.authority.epoch == live.epoch && d.authority.boot == live.boot && d.authority.observationEpoch == live.epoch
    && Supported(d.authority, d.scope, seen)
  }

  lemma SoundGrows(plan: Plan, seen: set<Observation>, more: set<Observation>)
    requires PlanSound(plan, seen) && seen <= more
    ensures PlanSound(plan, more)
  {
    hide Cites;
    forall i | 0 <= i < |plan.decisions| && plan.decisions[i].disposition == Actionable
      ensures BoundTo(plan.decisions[i], plan.live, more)
    {
      var d := plan.decisions[i];
      assert BoundTo(d, plan.live, seen);
      var x :| x in seen && x.scope == d.scope && Cites(d.authority, x);
      assert x in more;
    }
  }

  lemma BuiltPlanSound(limits: Limits, t: Tables, h: History, live: Live, request: Request, plan: Plan)
    requires Linked(t, h) && PlanSpec(limits, t, live, request) == Ok(plan)
    ensures PlanSound(plan, h.seen) && plan.live == live
  {
    hide ClassifySpec, Decisions, VerdictOf, AuthorityFor, FenceHolds, PolicyDigest, InputFor, Decidable, Linked,
         Supported, ScopeStep, FirstSteps;
    assert plan.live == live;
    forall i | 0 <= i < |plan.decisions| && plan.decisions[i].disposition == Actionable
      ensures BoundTo(plan.decisions[i], plan.live, h.seen)
    {
      ActionableIsAuthorised(limits, t, live, request, i);
      AuthorityBindings(live, t.policy.value, plan.evidence);
      SelectedSupports(limits, t, h, live, request, plan);
    }
  }

  /** The evidence a plan selected is an observation the store has committed. */
  lemma SelectedSupports(limits: Limits, t: Tables, h: History, live: Live, request: Request, plan: Plan)
    requires Linked(t, h) && PlanSpec(limits, t, live, request) == Ok(plan) && t.policy.Some?
    ensures plan.evidence.observation.Some? ==>
              Supported(AuthorityFor(live, t.policy.value, plan.evidence), plan.scope, h.seen)
  {
    hide ClassifySpec, Decisions, VerdictOf, PolicyDigest, InputFor, Decidable, Linked, SelectObservation, Stream,
         EvaluateFreshness, ScopeStep, FirstSteps;
    var input := InputFor(t, live, PolicyFor(t, request), request.scope, request.nowMs);
    DecidableReport(input);
    EngineEvidence(t, live, PolicyFor(t, request), request.scope, request.nowMs);
    if plan.evidence.observation.Some? {
      var x := plan.evidence.observation.value;
      SelectedIsCandidate(Stream(t, request.scope));
      CitedIsSeen(t, h, request.scope, x);
      assert Cites(AuthorityFor(live, t.policy.value, plan.evidence), x);
    }
  }

  lemma CitedIsSeen(t: Tables, h: History, scope: Id, o: Observation)
    requires Linked(t, h) && o in Stream(t, scope)
    ensures o in h.seen && o.scope == scope
  {
    hide AttemptsLinked, OneLivePerKey, SoundLineage, SoundOutcomes;
    assert StreamLinked(t.observations[scope], scope, h.seen);
  }

  // ---------------------------------------------------------------- what every prefix of an operation keeps

  /** A new attempt of this incarnation that no fence covers. */
  predicate OwnNew(fences: map<Id, Fence>, live: Live, a: Attempt) {
    a.epoch == live.epoch && a.boot == live.boot && !FenceHolds(fences, a.scope, a.subject, live.epoch)
  }

  /** No new epoch, and no new attempts but this incarnation's own. */
  ghost predicate Steady(limits: Limits, t: Tables, live: Live, entries: seq<Entry>)
    decreases |entries|
  {
    entries == [] ||
    (var e := entries[0];
     && !e.EpochAdvance? && (e.AttemptIssued? ==> OwnNew(t.fences, live, e.issued))
     && Steady(limits, Commit(limits, t, e), live, entries[1..]))
  }

  predicate Quiet(entries: seq<Entry>) {
    forall i :: 0 <= i < |entries| ==> !entries[i].EpochAdvance? && !entries[i].AttemptIssued?
  }

  lemma {:induction false} QuietIsSteady(limits: Limits, t: Tables, live: Live, entries: seq<Entry>)
    requires Quiet(entries)
    ensures Steady(limits, t, live, entries)
    decreases |entries|
  {
    hide Commit;
    if entries != [] { QuietIsSteady(limits, Commit(limits, t, entries[0]), live, entries[1..]); }
  }

  lemma TrimKeeps(limits: Limits, attempts: map<nat, Attempt>, fences: map<Id, Fence>, live: Live)
    ensures OwnAttempts(attempts, live) ==> OwnAttempts(TrimmedAttempts(limits, attempts), live)
    ensures NoneRevoked(attempts, fences) ==> NoneRevoked(TrimmedAttempts(limits, attempts), fences)
  {
    hide IsLive, Revoked;
  }

  lemma IssueKeeps(limits: Limits, t: Tables, live: Live, a: Attempt)
    requires OwnAttempts(t.attempts, live) && OwnNew(t.fences, live, a)
    ensures var u := Commit(limits, t, AttemptIssued(a));
            && OwnAttempts(u.attempts, live)
            && (NoneRevoked(t.attempts, t.fences) ==> NoneRevoked(u.attempts, u.fences))
  {
    hide IsTerminal, Covers, TrimmedAttempts;
    forall f | f in t.fences ensures !Revoked(t.fences[f], a) {
      assert !(Covers(t.fences[f], a.scope, a.subject) && live.epoch < t.fences[f].fencedBelow);
    }
    TrimKeeps(limits, t.attempts[a.id := a], t.fences, live);
  }

  lemma MoveKeeps(limits: Limits, t: Tables, h: History, live: Live, a: Attempt)
    requires Linked(t, h) && Legal(h, AttemptMoved(a)) && OwnAttempts(t.attempts, live)
    ensures var u := Commit(limits, t, AttemptMoved(a));
            && OwnAttempts(u.attempts, live)
            && (NoneRevoked(t.attempts, t.fences) ==> NoneRevoked(u.attempts, u.fences))
  {
    hide IsTerminal, Covers, OneLivePerKey, SoundLineage, SoundOutcomes, StreamsLinked, Stepped, TrimmedAttempts;
    LegalMoveIsLive(h.lineage[a.id].state, a.state);
    assert a.id in t.attempts && SameIdentity(t.attempts[a.id], a);
    TrimKeeps(limits, t.attempts[a.id := a], t.fences, live);
  }

  lemma StepKeeps(limits: Limits, t: Tables, h: History, live: Live, e: Entry)
    requires Linked(t, h) && Legal(h, e) && OwnAttempts(t.attempts, live) && t.policy.Some? && !e.EpochAdvance?
    requires e.AttemptIssued? ==> OwnNew(t.fences, live, e.issued)
    ensures var u := Commit(limits, t, e);
            && OwnAttempts(u.attempts, live) && u.policy.Some? && u.lastEpoch == t.lastEpoch
            && Track(h, e).epoch == h.epoch
            && (!e.FencePut? && NoneRevoked(t.attempts, t.fences) ==> NoneRevoked(u.attempts, u.fences))
  {
    hide TrimmedAttempts, KeepLast, ValidFence, Linked, OwnNew, IsTerminal, OwnAttempts, Legal, Revoked;
    match e {
      case AttemptIssued(a) => IssueKeeps(limits, t, live, a);
      case AttemptMoved(a) => MoveKeeps(limits, t, h, live, a);
      case _ =>
    }
  }

  predicate NoFencePut(entries: seq<Entry>) {
    forall i :: 0 <= i < |entries| ==> !entries[i].FencePut?
  }

  /** However few of an operation's records take effect, every open attempt is this incarnation's own, and unless a
      fence was installed, none comes under a fence. */
  lemma {:induction false} PrefixKeeps(limits: Limits, t: Tables, h: History, live: Live, entries: seq<Entry>, n: nat)
    requires Linked(t, h) && OwnAttempts(t.attempts, live) && t.policy.Some? && n <= |entries|
    requires Admits(limits, t, h, entries) && Steady(limits, t, live, entries)
    ensures var u := CommitAll(limits, t, entries[..n]);
            && OwnAttempts(u.attempts, live) && u.policy.Some? && u.lastEpoch == t.lastEpoch
            && TrackAll(h, entries[..n]).epoch == h.epoch
            && (NoFencePut(entries[..n]) && NoneRevoked(t.attempts, t.fences) ==> NoneRevoked(u.attempts, u.fences))
    decreases n
  {
    hide Linked, Legal, Commit, Track, OwnAttempts, NoneRevoked, OwnNew;
    if n > 0 {
      var e := entries[0];
      CommitLinked(limits, t, h, e);
      StepKeeps(limits, t, h, live, e);
      PrefixKeeps(limits, Commit(limits, t, e), Track(h, e), live, entries[1..], n - 1);
      assert entries[..n][1..] == entries[1..][..n - 1] && entries[..n][0] == e;
      assert NoFencePut(entries[..n]) ==> NoFencePut(entries[..n][1..]);
    }
  }

  // ---------------------------------------------------------------- operations, record by record

  /** What every operation's records are: legal where they fall, steady, and with no attempt left without its
      outcome. */
  ghost predicate Proper(limits: Limits, t: Tables, h: History, live: Live, entries: seq<Entry>) {
    && Admits(limits, t, h, entries) && Steady(limits, t, live, entries)
    && TrackAll(h, entries).pending.None?
  }

  lemma OneEntry(limits: Limits, t: Tables, h: History, e: Entry)
    requires Legal(h, e) && !e.AttemptIssued?
    ensures Admits(limits, t, h, [e])
    ensures CommitAll(limits, t, [e]) == Commit(limits, t, e) && TrackAll(h, [e]) == Track(h, e)
  {
    hide Legal, Commit, Track;
    var es := [e];
    assert es[1..] == [];
    EmptyAdmits(limits, Commit(limits, t, e), Track(h, e));
  }

  lemma NothingProper(limits: Limits, t: Tables, h: History, live: Live)
    requires h.pending.None?
    ensures Proper(limits, t, h, live, [])
  {}

  lemma DocumentProper(limits: Limits, t: Tables, h: History, live: Live, e: Entry)
    requires h.pending.None?
    requires e.PolicyPut? || e.IntentCommit? || e.ObservationCommit? || e.FenceClear? || e.FencePut?
    ensures Proper(limits, t, h, live, [e])
  {
    hide Commit;
    OneEntry(limits, t, h, e);
    QuietIsSteady(limits, t, live, [e]);
  }

  // ---------------------------------------------------------------- completion and verification

  lemma LegalMoveIsLive(from: AttemptState, to: AttemptState)
    requires TransitionLegal(from, to)
    ensures !IsTerminal(from)
  {}

  lemma MoveProper(limits: Limits, t: Tables, h: History, live: Live, moved: Attempt)
    requires Linked(t, h) && Serving(t, h, live) && moved.id in t.attempts && SameIdentity(t.attempts[moved.id], moved)
    requires moved.epoch == live.epoch && TransitionLegal(t.attempts[moved.id].state, moved.state)
             && !IsTerminal(moved.state)
    requires Stepped(t.attempts[moved.id], moved, live.epoch)
    ensures Proper(limits, t, h, live, [AttemptMoved(moved)])
  {
    hide TrimmedAttempts, OneLivePerKey, SoundLineage, SoundOutcomes, StreamsLinked, Commit;
    OneEntry(limits, t, h, AttemptMoved(moved));
    QuietIsSteady(limits, t, live, [AttemptMoved(moved)]);
  }

  lemma EndProper(limits: Limits, t: Tables, h: History, live: Live, moved: Attempt, o: Outcome)
    requires Linked(t, h) && Serving(t, h, live) && moved.id in t.attempts && Ends(t.attempts[moved.id], moved, o)
    requires moved.epoch == live.epoch && Stepped(t.attempts[moved.id], moved, live.epoch)
    requires o.verifiedGeneration != 0 ==> Evidenced(o, moved, live.epoch, h.seen)
    ensures Proper(limits, t, h, live, [AttemptMoved(moved), OutcomeCommit(o)])
  {
    hide Commit, Admits, Steady, CommitAll, TrackAll, OneLivePerKey, SoundLineage, SoundOutcomes, StreamsLinked,
         Evidenced;
    EndAdmits(limits, t, h, moved, o);
    QuietIsSteady(limits, t, live, [AttemptMoved(moved), OutcomeCommit(o)]);
  }

  lemma CompleteProper(limits: Limits, t: Tables, h: History, live: Live, c: Completion, clock: int)
    requires Linked(t, h) && Serving(t, h, live)
    ensures Proper(limits, t, h, live, CompleteOp(limits, t, live, c, clock).entries)
  {
    hide Linked, Proper, OwnAttempts;
    var entries := CompleteOp(limits, t, live, c, clock).entries;
    if entries == [] {
      NothingProper(limits, t, h, live);
    } else {
      TableIdentity(t, h, c.attempt);
      if IsTerminal(c.target) {
        EndProper(limits, t, h, live, entries[0].moved, entries[1].outcome);
      } else {
        MoveProper(limits, t, h, live, entries[0].moved);
      }
    }
  }

  lemma TableIdentity(t: Tables, h: History, id: nat)
    requires Linked(t, h) && id in t.attempts
    ensures t.attempts[id].id == id
  {
    assert SoundAttempt(h.lineage[id], id, h.epoch, t.nextAttempt);
  }

  lemma VerifyProper(limits: Limits, t: Tables, h: History, live: Live, v: Verification, clock: int)
    requires Linked(t, h) && Serving(t, h, live)
    ensures Proper(limits, t, h, live, VerifyOp(limits, t, live, v, clock).entries)
  {
    hide Linked, Proper, OwnAttempts, Stream, EvaluateFreshness, FirstSame;
    var entries := VerifyOp(limits, t, live, v, clock).entries;
    if entries == [] {
      NothingProper(limits, t, h, live);
    } else {
      var id := Smallest(WithKey(t.attempts, v.key));
      TableIdentity(t, h, id);
      var cited := FirstSame(Stream(t, v.scope), v.verifier, v.observation, v.generation).value;
      CitedIsSeen(t, h, v.scope, cited);
      assert Backs(cited, entries[1].outcome, entries[0].moved);
      EndProper(limits, t, h, live, entries[0].moved, entries[1].outcome);
    }
  }

  // ---------------------------------------------------------------- fences and restarts

  lemma {:induction false} CloseAllQuiet(limits: Limits, live: Live, closing: Closing, attempts: map<nat, Attempt>,
                                         ids: seq<nat>, nowMs: int)
    requires forall id :: id in ids ==> id in attempts
    ensures Quiet(CloseAll(limits, live, closing, attempts, ids, nowMs))
    ensures NoFencePut(CloseAll(limits, live, closing, attempts, ids, nowMs))
    ensures |CloseAll(limits, live, closing, attempts, ids, nowMs)| == 2 * |ids|
    decreases |ids|
  {
    hide Moved, MovedByRestart, ClosingStep, OutcomeOf;
    if ids != [] { CloseAllQuiet(limits, live, closing, attempts, ids[1..], nowMs); }
  }

  lemma FenceProper(limits: Limits, t: Tables, h: History, live: Live, f: Fence, clock: int)
    requires Linked(t, h) && Serving(t, h, live)
    ensures Proper(limits, t, h, live, PutFenceOp(limits, t, live, f, clock).entries)
  {
    hide ValidFence, Linked, Proper, CloseAll, Victims, OwnAttempts;
    var entry := f.(createdMs := Stamp(f.createdMs, clock));
    if f.id == [] || f.scope == [] || f.fencedBelow == 0 {
      NothingProper(limits, t, h, live);
    } else if !ValidFence(entry) {
      DocumentProper(limits, t, h, live, FencePut(entry));
    } else {
      FenceRevokes(limits, t, h, live, entry, entry.createdMs);
    }
  }

  /** Installing a fence ends every open attempt it covers. */
  lemma FenceRevokes(limits: Limits, t: Tables, h: History, live: Live, f: Fence, nowMs: int)
    requires Linked(t, h) && Serving(t, h, live) && ValidFence(f)
    ensures var ids := SortedIds(Victims(t.attempts, f));
            Proper(limits, t, h, live, [FencePut(f)] + CloseAll(limits, live, ByFence, t.attempts, ids, nowMs))
  {
    hide ValidFence, CloseAll, Admits, Steady, CommitAll, TrackAll, Linked, OwnAttempts, SortedIds, Victims, Closed;
    var ids := SortedIds(Victims(t.attempts, f));
    VictimsKnown(t.attempts, f);
    var es := CloseAll(limits, live, ByFence, t.attempts, ids, nowMs);
    OneEntry(limits, t, h, FencePut(f));
    InForce(limits, t, h, live, f);
    CloseAllAdmits(limits, t.(fences := t.fences[f.id := f]), h, live, ByFence, t.attempts, ids, nowMs);
    AdmitsAppend(limits, t, h, [FencePut(f)], es);
    CloseAllQuiet(limits, live, ByFence, t.attempts, ids, nowMs);
    QuietIsSteady(limits, t, live, [FencePut(f)] + es);
  }

  /** After `m` of the records that end a list of attempts, the first of them have ended, the others have not. */
  lemma {:induction false} CloseAllPrefix(limits: Limits, t: Tables, h: History, live: Live, closing: Closing,
                                          attempts: map<nat, Attempt>, ids: seq<nat>, nowMs: int, m: nat)
    requires Closable(t, h, live, closing, attempts, ids)
    requires m <= |CloseAll(limits, live, closing, attempts, ids, nowMs)| == 2 * |ids|
    ensures var es := CloseAll(limits, live, closing, attempts, ids, nowMs)[..m];
            && Linked(CommitAll(limits, t, es), TrackAll(h, es)) && SameSetting(t, CommitAll(limits, t, es))
            && Closed(h.lineage, TrackAll(h, es).lineage, ids[..(m + 1) / 2])
    decreases |ids|
  {
    hide CloseEntries, Linked, Admits, CommitAll, TrackAll, Closed, IsLive;
    var all := CloseAll(limits, live, closing, attempts, ids, nowMs);
    if m == 0 {
      NothingClosed(limits, t, h, all, ids);
    } else {
      var es := CloseEntries(limits, live, closing, attempts[ids[0]], nowMs);
      var moved := CloseFirst(limits, t, h, live, closing, attempts, ids, nowMs);
      if m == 1 {
        assert all[..1] == es[..1];
        OneClosed(limits, t, h, moved, es, ids);
      } else {
        var rest := ids[1..];
        var t1, h1 := CommitAll(limits, t, es), TrackAll(h, es);
        CloseAllPrefix(limits, t1, h1, live, closing, attempts, rest, nowMs, m - 2);
        var more := CloseAll(limits, live, closing, attempts, rest, nowMs)[..m - 2];
        assert all[..m] == es + more;
        CommitSplit(limits, t, h, es, more);
        assert ids[..(m + 1) / 2][1..] == rest[..(m - 1) / 2];
        ClosedStep(h.lineage, moved, TrackAll(h1, more).lineage, ids[..(m + 1) / 2]);
      }
    }
  }

  lemma NothingClosed(limits: Limits, t: Tables, h: History, all: seq<Entry>, ids: seq<nat>)
    ensures CommitAll(limits, t, all[..0]) == t && TrackAll(h, all[..0]) == h && Closed(h.lineage, h.lineage, ids[..0])
  {
    assert all[..0] == [];
  }

  lemma OneClosed(limits: Limits, t: Tables, h: History, moved: Attempt, es: seq<Entry>, ids: seq<nat>)
    requires Linked(t, h) && |es| == 2 && es[0] == AttemptMoved(moved) && Admits(limits, t, h, es)
    requires ids != [] && ids[0] == moved.id && moved.id in h.lineage && !IsLive(moved)
    ensures Linked(CommitAll(limits, t, es[..1]), TrackAll(h, es[..1])) && SameSetting(t, CommitAll(limits, t, es[..1]))
    ensures Closed(h.lineage, TrackAll(h, es[..1]).lineage, ids[..1])
  {
    hide Linked, IsTerminal, TrimmedAttempts, Legal;
    AdmitsLinked(limits, t, h, es, 1);
    assert es[..1] == [AttemptMoved(moved)] && es[..1][1..] == [];
    assert TrackAll(h, es[..1]) == Track(h, es[0]) && CommitAll(limits, t, es[..1]) == Commit(limits, t, es[0]);
  }

  lemma {:induction false} CommitSplit(limits: Limits, t: Tables, h: History, a: seq<Entry>, b: seq<Entry>)
    ensures CommitAll(limits, t, a + b) == CommitAll(limits, CommitAll(limits, t, a), b)
    ensures TrackAll(h, a + b) == TrackAll(TrackAll(h, a), b)
    decreases |a|
  {
    hide Commit, Track;
    if a == [] {
      assert a + b == b;
    } else {
      assert (a + b)[1..] == a[1..] + b;
      CommitSplit(limits, Commit(limits, t, a[0]), Track(h, a[0]), a[1..], b);
    }
  }

  /** A fence installation leaves no open attempt under a fence exactly when none of its records took effect, or all
      of them did but possibly the last outcome. */
  lemma FenceExactly(limits: Limits, t: Tables, h: History, live: Live, f: Fence, clock: int, n: nat)
    requires Linked(t, h) && Serving(t, h, live) && NoneRevoked(t.attempts, t.fences)
    requires n <= |PutFenceOp(limits, t, live, f, clock).entries|
    ensures var entries := PutFenceOp(limits, t, live, f, clock).entries;
            var u := CommitAll(limits, t, entries[..n]);
            NoneRevoked(u.attempts, u.fences) <==> n == 0 || |entries| <= n + 1
  {
    hide ValidFence, Linked, CloseAll, Victims, OwnAttempts, NoneRevoked, CommitAll;
    var entries := PutFenceOp(limits, t, live, f, clock).entries;
    if n == 0 {
      NothingClosed(limits, t, h, entries, []);
    } else {
      var entry := f.(createdMs := Stamp(f.createdMs, clock));
      if ValidFence(entry) {
        InForceExactly(limits, t, h, live, entry, entry.createdMs, entries, n);
      } else {
        assert entries[..n] == [FencePut(entry)];
        IgnoredFence(limits, t, entry);
      }
    }
  }

  lemma IgnoredFence(limits: Limits, t: Tables, f: Fence)
    requires !ValidFence(f)
    ensures CommitAll(limits, t, [FencePut(f)]) == t
  {
    hide ValidFence;
    var es := [FencePut(f)];
    assert es[1..] == [];
  }

  lemma InForceExactly(limits: Limits, t: Tables, h: History, live: Live, f: Fence, nowMs: int, entries: seq<Entry>,
                       n: nat)
    requires Linked(t, h) && Serving(t, h, live) && NoneRevoked(t.attempts, t.fences) && ValidFence(f)
    requires var ids := SortedIds(Victims(t.attempts, f));
             entries == [FencePut(f)] + CloseAll(limits, live, ByFence, t.attempts, ids, nowMs)
    requires 0 < n <= |entries|
    ensures var u := CommitAll(limits, t, entries[..n]); NoneRevoked(u.attempts, u.fences) <==> |entries| <= n + 1
  {
    hide ValidFence, CloseAll, CommitAll, TrackAll, NoneRevoked, Closed, Linked, OwnAttempts, SortedIds, Victims,
         Admits, SameSetting;
    var ids := SortedIds(Victims(t.attempts, f));
    VictimsKnown(t.attempts, f);
    var es := CloseAll(limits, live, ByFence, t.attempts, ids, nowMs);
    InForce(limits, t, h, live, f);
    var t1 := t.(fences := t.fences[f.id := f]);
    CloseAllQuiet(limits, live, ByFence, t.attempts, ids, nowMs);
    CloseAllPrefix(limits, t1, h, live, ByFence, t.attempts, ids, nowMs, n - 1);
    assert entries[..n] == [FencePut(f)] + es[..n - 1];
    CommitSplit(limits, t, h, [FencePut(f)], es[..n - 1]);
    RevokedExactly(t, h, CommitAll(limits, t1, es[..n - 1]), TrackAll(h, es[..n - 1]), live, f, ids, n / 2);
  }

  lemma InForce(limits: Limits, t: Tables, h: History, live: Live, f: Fence)
    requires Linked(t, h) && Serving(t, h, live) && ValidFence(f)
    ensures var t1 := t.(fences := t.fences[f.id := f]);
            && CommitAll(limits, t, [FencePut(f)]) == t1 && TrackAll(h, [FencePut(f)]) == h
            && Closable(t1, h, live, ByFence, t.attempts, SortedIds(Victims(t.attempts, f)))
  {
    hide ValidFence, CommitAll, TrackAll, Admits, SoundLineage, SoundOutcomes, StreamsLinked, OneLivePerKey, IsTerminal,
         AttemptsLinked;
    OneEntry(limits, t, h, FencePut(f));
    CommitLinked(limits, t, h, FencePut(f));
    VictimsOpen(t, h, live, f, SortedIds(Victims(t.attempts, f)));
  }

  lemma VictimsOpen(t: Tables, h: History, live: Live, f: Fence, ids: seq<nat>)
    requires Linked(t, h) && Serving(t, h, live) && ids == SortedIds(Victims(t.attempts, f))
    ensures AllOpen(h.lineage, t.attempts, ids) && forall id :: id in ids ==> t.attempts[id].epoch == h.epoch
  {
    hide SoundLineage, SoundOutcomes, StreamsLinked, OneLivePerKey, IsTerminal, Covers;
  }

  lemma RevokedExactly(t: Tables, h: History, u: Tables, h': History, live: Live, f: Fence, ids: seq<nat>, k: nat)
    requires Linked(t, h) && Linked(u, h') && NoneRevoked(t.attempts, t.fences)
    requires SameSetting(t.(fences := t.fences[f.id := f]), u)
    requires ids == SortedIds(Victims(t.attempts, f)) && k <= |ids| && Closed(h.lineage, h'.lineage, ids[..k])
    ensures NoneRevoked(u.attempts, u.fences) <==> k == |ids|
  {
    hide Linked, NoneRevoked, SameSetting, SortedIds, Victims, Closed;
    if k == |ids| {
      assert ids[..k] == ids;
      AllVictimsEnded(t, h, u, h', f, ids);
    } else {
      VictimLeft(t, h, u, h', f, ids, k);
    }
  }

  lemma AllVictimsEnded(t: Tables, h: History, u: Tables, h': History, f: Fence, ids: seq<nat>)
    requires Linked(t, h) && Linked(u, h') && NoneRevoked(t.attempts, t.fences)
    requires SameSetting(t.(fences := t.fences[f.id := f]), u)
    requires ids == SortedIds(Victims(t.attempts, f)) && Closed(h.lineage, h'.lineage, ids)
    ensures NoneRevoked(u.attempts, u.fences)
  {
    hide SoundLineage, SoundOutcomes, StreamsLinked, OneLivePerKey, IsTerminal, Covers;
    forall id | id in u.attempts && IsLive(u.attempts[id])
      ensures id in t.attempts && t.attempts[id] == u.attempts[id] && !Revoked(f, t.attempts[id])
    {
      assert id in h'.lineage && id !in ids;
    }
  }

  lemma VictimLeft(t: Tables, h: History, u: Tables, h': History, f: Fence, ids: seq<nat>, k: nat)
    requires Linked(t, h) && Linked(u, h') && SameSetting(t.(fences := t.fences[f.id := f]), u)
    requires ids == SortedIds(Victims(t.attempts, f)) && k < |ids| && Closed(h.lineage, h'.lineage, ids[..k])
    ensures !NoneRevoked(u.attempts, u.fences)
  {
    hide SoundLineage, SoundOutcomes, StreamsLinked, OneLivePerKey, IsTerminal, Covers;
    var id := ids[k];
    assert id !in ids[..k] && id in Victims(t.attempts, f);
    assert id in h'.lineage && h'.lineage[id] == h.lineage[id] == t.attempts[id] && IsLive(h'.lineage[id]);
    assert id in u.attempts && u.attempts[id] == t.attempts[id] && Revoked(u.fences[f.id], u.attempts[id]);
  }

  /** A complete restart leaves no attempt open. */
  lemma BootServes(limits: Limits, t: Tables, h: History, supplied: Option<Policy>, boot: BootId, clock: int)
    requires Linked(t, h)
    ensures var effect := Boot(limits, t, supplied, boot, clock);
            && Admits(limits, t, h, effect.entries)
            && (effect.result.Ok? ==> Started(CommitAll(limits, t, effect.entries), TrackAll(h, effect.entries),
                                              effect.result.value))
  {
    hide CloseAll, Admits, CommitAll, TrackAll, InitialPolicy, Linked, Started;
    var effect := Boot(limits, t, supplied, boot, clock);
    var initial := InitialPolicy(limits, supplied);
    EmptyAdmits(limits, t, h);
    if t.policy.None? && initial.Ok? {
      var e := PolicyPut(initial.value);
      var t1 := t.(policy := Some(initial.value));
      NoLineage(t, h);
      OneEntry(limits, t, h, e);
      CommitLinked(limits, t, h, e);
      assert Commit(limits, t, e) == t1 && Track(h, e) == h;
      if effect.result.Ok? {
        EpochServes(limits, t1, h, effect.result.value, clock);
        AdmitsAppend(limits, t, h, [e], RestartEntries(limits, t1, effect.result.value, clock));
        assert effect.entries == [e] + RestartEntries(limits, t1, effect.result.value, clock);
      } else {
        assert effect.entries == [e];
      }
    } else if t.policy.Some? && effect.result.Ok? {
      EpochServes(limits, t, h, effect.result.value, clock);
      assert effect.entries == RestartEntries(limits, t, effect.result.value, clock);
    }
  }

  /** What a restart leaves behind. */
  ghost predicate Started(t: Tables, h: History, live: Live) {
    Serving(t, h, live) && NoneRevoked(t.attempts, t.fences)
  }

  lemma NoLineage(t: Tables, h: History)
    requires Linked(t, h) && t.policy.None?
    ensures h.pending.None?
  {
    hide AttemptsLinked, OneLivePerKey, SoundLineage, StreamsLinked;
  }

  function RestartEntries(limits: Limits, t: Tables, live: Live, clock: int): seq<Entry> {
    [EpochAdvance(live.epoch)] + CloseAll(limits, live, ByRestart, t.attempts, OpenIds(t.attempts), clock)
  }

  lemma OpenClosable(limits: Limits, t: Tables, h: History, live: Live)
    requires Linked(t, h) && t.lastEpoch < live.epoch
    ensures var e := EpochAdvance(live.epoch);
            Legal(h, e) && Closable(Commit(limits, t, e), Track(h, e), live, ByRestart, t.attempts, OpenIds(t.attempts))
  {
    hide SoundLineage, SoundOutcomes, StreamsLinked, OneLivePerKey, IsTerminal;
    CommitLinked(limits, t, h, EpochAdvance(live.epoch));
    assert forall id :: id in OpenIds(t.attempts) <==> id in LiveIds(t.attempts);
  }

  /** Once everything that was open has ended, nothing is open. */
  lemma NoneOpen(t: Tables, h: History, u: Tables, h': History)
    requires Linked(t, h) && Linked(u, h') && Closed(h.lineage, h'.lineage, OpenIds(t.attempts))
    ensures forall id :: id in u.attempts ==> !IsLive(u.attempts[id])
  {
    hide SoundLineage, SoundOutcomes, StreamsLinked, OneLivePerKey, IsTerminal;
    assert forall id :: id in OpenIds(t.attempts) <==> id in LiveIds(t.attempts);
    forall id | id in u.attempts ensures !IsLive(u.attempts[id]) {
      assert id in h'.lineage && u.attempts[id] == h'.lineage[id];
    }
  }

  lemma EpochServes(limits: Limits, t: Tables, h: History, live: Live, clock: int)
    requires Linked(t, h) && t.lastEpoch < live.epoch && t.policy.Some?
    ensures Admits(limits, t, h, RestartEntries(limits, t, live, clock))
    ensures var entries := RestartEntries(limits, t, live, clock);
            Started(CommitAll(limits, t, entries), TrackAll(h, entries), live)
  {
    hide CloseAll, Admits, CommitAll, TrackAll, Linked, Legal, IsTerminal, Covers, Closed, AllOpen, AscendingIds,
         OpenIds;
    var ids := OpenIds(t.attempts);
    var e := EpochAdvance(live.epoch);
    var es := CloseAll(limits, live, ByRestart, t.attempts, ids, clock);
    OpenClosable(limits, t, h, live);
    OneEntry(limits, t, h, e);
    var t1, h1 := Commit(limits, t, e), Track(h, e);
    CloseAllAdmits(limits, t1, h1, live, ByRestart, t.attempts, ids, clock);
    AdmitsAppend(limits, t, h, [e], es);
    NoneOpen(t, h, CommitAll(limits, t1, es), TrackAll(h1, es));
  }
}
