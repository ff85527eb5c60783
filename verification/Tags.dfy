/** Message-tag namespaces of the collectives, the pipeline and the tensor-parallel runner. */
module Tags {
  import opened Options

  const U64_LIMIT: nat := 0x1_0000_0000_0000_0000
  const COLLECTIVE_TAG_BASE: nat := 0x4000_0000_0000_0000
  const COLLECTIVE_TAG_LIMIT: nat := 0x5000_0000_0000_0000
  const TAG_SEQUENCE_STRIDE: nat := 0x1_0000
  const ACTIVATION_BASE: nat := 0x1000_0000_0000_0000
  const TOKEN_BASE: nat := 0x2000_0000_0000_0000
  const DECISION_BASE: nat := 0x3000_0000_0000_0000
  const STEP_SPAN: nat := 0x1000_0000_0000_0000

  /** Largest number of collectives one communicator can start: the tag range holds 2^44 strides. */
  const MAX_SEQUENCES: nat := 0x1000_0000_0000

  datatype CollectiveKind = Broadcast | AllGather | Reduce | AllReduce | ReduceScatter | AllToAll

  function TagId(kind: CollectiveKind): nat {
    match kind
    case Broadcast => 1
    case AllGather => 2
    case Reduce => 3
    case AllReduce => 4
    case ReduceScatter => 5
    case AllToAll => 6
  }

  // ---- u64 arithmetic that reports overflow ----

  function CheckedMul(a: nat, b: nat): Option<nat> {
    if a * b < U64_LIMIT then Some(a * b) else None
  }

  function CheckedAdd(a: Option<nat>, b: nat): Option<nat> {
    if a.Some? && a.value + b < U64_LIMIT then Some(a.value + b) else None
  }

  /** The tag of one message of one collective; `None` is the error return. */
  function CollectiveTag(sequence: nat, kind: CollectiveKind, phase: nat, step: nat): Option<nat> {
    if phase > 0x0f || step > 0xff then None
    else
      var strides := CheckedMul(sequence, TAG_SEQUENCE_STRIDE);
      var kinds := CheckedAdd(strides, TagId(kind) * 0x1000);
      var phases := CheckedAdd(kinds, phase * 0x100);
      var tag := CheckedAdd(CheckedAdd(phases, step), COLLECTIVE_TAG_BASE);
      if tag.Some? && tag.value < COLLECTIVE_TAG_LIMIT then tag else None
  }

  /** `base + step` while it stays inside the namespace; `None` is the error return. */
  function StepTag(base: nat, step: nat): Option<nat> {
    var tag := CheckedAdd(Some(base), step);
    if tag.Some? && tag.value < base + STEP_SPAN then tag else None
  }

  function ActivationTag(step: nat): Option<nat> { StepTag(ACTIVATION_BASE, step) }
  function TokenTag(step: nat): Option<nat> { StepTag(TOKEN_BASE, step) }
  function DecisionTag(step: nat): Option<nat> { StepTag(DECISION_BASE, step) }

  /** A tag is produced exactly for 2^44 sequences, 16 phases and 256 steps; no accepted tag
  leaves the reserved range, and no u64 operation overflows on the way to it. */
  lemma CollectiveTagExact(sequence: nat, kind: CollectiveKind, phase: nat, step: nat)
    ensures CollectiveTag(sequence, kind, phase, step).Some? <==>
            sequence < MAX_SEQUENCES && phase <= 0x0f && step <= 0xff
    ensures CollectiveTag(sequence, kind, phase, step).Some? ==>
              COLLECTIVE_TAG_BASE <= CollectiveTag(sequence, kind, phase, step).value < COLLECTIVE_TAG_LIMIT
  {
    assert 0x1000 <= TagId(kind) * 0x1000 <= 0x6000;
  }

  /** The number of a tag: four bits that mark a collective, the sequence from bit 16 on, the kind in bits 12 to 15,
  the phase in bits 8 to 11, and the step in the low byte. Step tags are one of three other marks plus the step. */
  lemma TagNumbers(sequence: nat, kind: CollectiveKind, phase: nat, step: nat)
    ensures CollectiveTag(sequence, kind, phase, step).Some? ==>
              CollectiveTag(sequence, kind, phase, step).value
              == 0x4000_0000_0000_0000 + sequence * 65536
                 + (match kind
                    case Broadcast => 1
                    case AllGather => 2
                    case Reduce => 3
                    case AllReduce => 4
                    case ReduceScatter => 5
                    case AllToAll => 6) * 4096 + phase * 256 + step
    ensures step < 0x1000_0000_0000_0000 ==>
              && ActivationTag(step) == Some(0x1000_0000_0000_0000 + step)
              && TokenTag(step) == Some(0x2000_0000_0000_0000 + step)
              && DecisionTag(step) == Some(0x3000_0000_0000_0000 + step)
  {}

  /** Two messages share a tag only when they are the same message of the same collective. */
  lemma CollectiveTagInjective(s1: nat, k1: CollectiveKind, p1: nat, t1: nat, s2: nat, k2: CollectiveKind, p2: nat, t2: nat)
    requires CollectiveTag(s1, k1, p1, t1).Some?
    requires CollectiveTag(s1, k1, p1, t1) == CollectiveTag(s2, k2, p2, t2)
    ensures s1 == s2 && k1 == k2 && p1 == p2 && t1 == t2
  {
    var low1 := TagId(k1) * 0x1000 + p1 * 0x100 + t1;
    var low2 := TagId(k2) * 0x1000 + p2 * 0x100 + t2;
    assert s1 * TAG_SEQUENCE_STRIDE + low1 == s2 * TAG_SEQUENCE_STRIDE + low2;
    assert low1 < TAG_SEQUENCE_STRIDE && low2 < TAG_SEQUENCE_STRIDE;
    assert TagId(k1) == TagId(k2) ==> k1 == k2;
  }

  /** Step tags are accepted exactly below 2^60, and the four namespaces do not overlap, so no
  activation, token, decision or collective message can satisfy a receive of another kind. */
  lemma NamespacesDisjoint(step1: nat, step2: nat, sequence: nat, kind: CollectiveKind, phase: nat, step: nat)
    ensures ActivationTag(step1).Some? <==> step1 < STEP_SPAN
    ensures TokenTag(step1).Some? <==> step1 < STEP_SPAN
    ensures DecisionTag(step1).Some? <==> step1 < STEP_SPAN
    ensures step1 < STEP_SPAN && step2 < STEP_SPAN ==>
              && ActivationTag(step1) != TokenTag(step2)
              && ActivationTag(step1) != DecisionTag(step2)
              && TokenTag(step1) != DecisionTag(step2)
              && (step1 != step2 ==> ActivationTag(step1) != ActivationTag(step2)
                                     && TokenTag(step1) != TokenTag(step2)
                                     && DecisionTag(step1) != DecisionTag(step2))
    ensures CollectiveTag(sequence, kind, phase, step).Some? && step1 < STEP_SPAN ==>
              CollectiveTag(sequence, kind, phase, step) !in {ActivationTag(step1), TokenTag(step1), DecisionTag(step1)}
  {
    CollectiveTagExact(sequence, kind, phase, step);
  }
}
