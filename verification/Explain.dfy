/** Explanations: the ordered, bounded steps that accompany a plan and each of its decisions. */
module Explain {
  import opened Bytes
  import opened Model
  import opened Drift

  datatype Step = Step(code: ReasonCode, detail: seq<byte>)

  // ---------------------------------------------------------------- texts

  function AsBytes(s: string): (r: seq<byte>)
    ensures |r| == |s|
  {
    seq(|s|, i requires 0 <= i < |s| => s[i] as int % 256)
  }

  function Digits(n: nat): seq<byte> {
    if n < 10 then [48 + n] else Digits(n / 10) + [48 + n % 10]
  }

  function Decimal(i: int): seq<byte> {
    if i < 0 then [45] + Digits(0 - i) else Digits(i)
  }

  function Render(v: AttributeValue): seq<byte> {
    match v
    case Absent => AsBytes("<absent>")
    case Boolean(b) => AsBytes(if b then "true" else "false")
    case Integer(i) => Decimal(i)
    case Unsigned(u) => Digits(u)
    case Text(t) => AsBytes("text:") + t
    case Token(t) => t
    case InvalidValue => AsBytes("<invalid>")
  }

  function FreshnessText(f: Freshness): seq<byte> {
    match f
    case Fresh => AsBytes("FRESH")
    case Expired => AsBytes("EXPIRED")
    case ForeignEpoch => AsBytes("FOREIGN_EPOCH")
    case ClockRegression => AsBytes("CLOCK_REGRESSION")
    case NoEvidence => AsBytes("INVALID")
  }

  // ---------------------------------------------------------------- bounded explanations

  /** A bound of zero still leaves room for one step. */
  function Room(bound: nat): nat {
    if bound == 0 then 1 else bound
  }

  /** The steps that are kept of those offered: the first ones. */
  function FirstSteps(offered: seq<Step>, bound: nat): (r: seq<Step>)
    ensures r <= offered && |r| <= Room(bound)
  {
    if |offered| > Room(bound) then offered[..Room(bound)] else offered
  }

  /** An explanation while it is being written. `offered` is everything that was added to it. */
  class Explanation {
    var steps: seq<Step>
    var truncated: bool
    const bound: nat
    ghost var offered: seq<Step>

    ghost predicate Valid()
      reads this
    {
      steps == FirstSteps(offered, bound) && truncated == (|offered| > Room(bound))
    }

    constructor (bound: nat)
      ensures Valid() && offered == [] && this.bound == bound
    {
      steps, truncated, offered := [], false, [];
      this.bound := bound;
    }

    method Add(step: Step)
      requires Valid()
      modifies this
      ensures Valid() && offered == old(offered) + [step]
    {
      if |steps| >= Room(bound) {
        truncated := true;
      } else {
        steps := steps + [step];
      }
      offered := offered + [step];
    }
  }

  // ---------------------------------------------------------------- attribute differences

  /** What a mismatched subject's explanation says about one difference: nothing, if the attribute is unmanaged. */
  function DeltaStep(d: Delta): seq<Step> {
    if d.kind == ObserveOnly then [Step(POLICY_FORBIDS_APPLY_MISMATCH, AsBytes("observe-only attribute ") + d.key)]
    else if d.kind == Unmanaged then []
    else [Step(CLASSIFIED_ATTRIBUTE_MISMATCH,
               d.key + AsBytes(" intended=") + Render(d.intended) + AsBytes(" observed=") + Render(d.observed))]
  }

  function DeltaSteps(deltas: seq<Delta>): seq<Step> {
    if deltas == [] then [] else DeltaSteps(deltas[..|deltas| - 1]) + DeltaStep(deltas[|deltas| - 1])
  }

  method AddDeltas(e: Explanation, deltas: seq<Delta>)
    requires e.Valid()
    modifies e
    ensures e.Valid() && e.offered == old(e.offered) + DeltaSteps(deltas)
  {
    hide DeltaStep;
    var n := 0;
    while n < |deltas|
      invariant 0 <= n <= |deltas| && e.Valid()
      invariant e.offered == old(e.offered) + DeltaSteps(deltas[..n])
    {
      var step := DeltaStep(deltas[n]);
      assert deltas[..n + 1][..n] == deltas[..n];
      DeltaStepSize(deltas[n]);
      if step != [] {
        e.Add(step[0]);
      }
      n := n + 1;
    }
    assert deltas[..|deltas|] == deltas;
  }

  lemma DeltaStepSize(d: Delta)
    ensures |DeltaStep(d)| <= 1
  {}
}
