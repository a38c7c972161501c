/** Which records the journal takes: a payload over the configured bound, or over what the encoder can hold, is refused
    and nothing is written. */
module RecordSizes {
  import opened Bytes
  import opened Ordering
  import opened Model
  import opened Canonical
  import opened DocumentCodec
  import opened LineageCodec
  import opened StoreState

  predicate Accepted(limits: Limits, e: Entry) {
    |PayloadOf(e)| <= limits.maxJournalPayloadBytes && Fits(PayloadOf(e))
  }

  /** How many of these records are taken: an operation gives up at the first refusal. */
  function Reach(limits: Limits, entries: seq<Entry>): (n: nat)
    ensures n <= |entries|
    ensures forall i :: 0 <= i < n ==> Accepted(limits, entries[i])
    ensures n < |entries| ==> !Accepted(limits, entries[n])
  {
    if entries == [] || !Accepted(limits, entries[0]) then 0
    else
      var n := Reach(limits, entries[1..]);
      assert forall i :: 0 < i <= n ==> entries[i] == entries[1..][i - 1];
      1 + n
  }

  // ---------------------------------------------------------------- sizes

  lemma {:induction false} TransitionsSize(ts: seq<Transition>, k: seq<byte>)
    ensures |PutTransitions(ts, k)| == 42 * |ts| + |k|
  {
    hide LE;
    if ts != [] { TransitionsSize(ts[1..], k); }
  }

  lemma AttemptHeadSize(a: Attempt, k: seq<byte>)
    ensures |PutAttemptHead(a, k)| == 77 + |a.scope| + |a.subject| + |k|
  {
    hide LE;
  }

  /** The identities an authority vector names. */
  function NamesSize(a: Authority): nat {
    |a.policyId| + |a.definition| + |a.intent| + |a.observation| + |a.reporter|
  }

  lemma AuthoritySize(a: Authority, k: seq<byte>)
    ensures |PutAuthority(a, k)| == 184 + NamesSize(a) + |k|
  {
    hide LE;
  }

  lemma AttemptSize(a: Attempt)
    ensures |PutAttempt(a, [])| == 274 + |a.scope| + |a.subject| + NamesSize(a.authority) + 42 * |a.transitions|
  {
    hide LE, PutAttemptHead, PutAuthority, PutTransitions;
    var k3 := PutTransitions(a.transitions, []);
    var k2 := PutU8(StateCode(a.state), PutI64(a.issuedMs, PutU32(|a.transitions|, k3)));
    TransitionsSize(a.transitions, []);
    assert |k2| == 13 + |k3|;
    AuthoritySize(a.authority, k2);
    AttemptHeadSize(a, PutAuthority(a.authority, k2));
  }

  lemma OutcomeSize(o: Outcome)
    ensures |PutOutcome(o, [])| == 98 + |o.scope| + |o.subject|
  {
    hide LE;
  }

  /** The outcome of an attempt is never too large once the attempt itself was taken. */
  lemma OutcomeFits(limits: Limits, a: Attempt, o: Outcome)
    requires o.scope == a.scope && o.subject == a.subject && Accepted(limits, AttemptMoved(a))
    ensures Accepted(limits, OutcomeCommit(o))
  {
    hide PutAttempt, PutOutcome;
    AttemptSize(a);
    OutcomeSize(o);
  }

  // ---------------------------------------------------------------- a bound that is always enough

  /** Room for any attempt record. */
  predicate Roomy(limits: Limits) {
    1674 + 42 * limits.maxTransitions <= limits.maxJournalPayloadBytes
    && 1674 + 42 * limits.maxTransitions <= MAX_CANONICAL_BYTES
  }

  lemma AttemptsFit(limits: Limits, a: Attempt)
    requires Roomy(limits) && ValidAttempt(limits, a)
    ensures Accepted(limits, AttemptMoved(a)) && Accepted(limits, AttemptIssued(a))
  {
    hide PutAttempt, ValidTransition;
    AttemptSize(a);
    IdSize(a.scope);
    IdSize(a.subject);
    IdSize(a.authority.policyId);
    IdSize(a.authority.definition);
    IdSize(a.authority.intent);
    IdSize(a.authority.observation);
    IdSize(a.authority.reporter);
  }

  lemma IdSize(s: Id)
    requires OptionalId(s)
    ensures |s| <= MAX_IDENTITY_LENGTH
  {}
}
