/**
 * The flow controller: a linear state machine over the positions
 * 0 .. N-1 of the active client's step list, written through to storage
 * on every transition that changes the position.
 */
module Flow {
  import opened Wrappers
  import opened Clients

  /** The index `nextStep` leaves in a flow of `n` steps: one further unless at the last step. */
  function NextIndex(n: int, i: int): (r: int)
    ensures r == i <==> i == n - 1
    ensures r != i ==> r == i + 1
    ensures 0 <= i < n ==> 0 <= r < n
  {
    if i != n - 1 then i + 1 else i
  }

  /** The index `prevStep` leaves: one back unless at the first step. */
  function PrevIndex(i: int): (r: int)
    ensures r == i <==> i == 0
    ensures r != i ==> r == i - 1
    ensures 0 <= i ==> 0 <= r <= i
  {
    if i != 0 then i - 1 else i
  }

  /** The index `setStep(target)` leaves: the target if it is a position of the flow, else the old index. */
  function SetIndex(n: int, i: int, target: int): (r: int)
    ensures 0 <= target < n ==> r == target
    ensures !(0 <= target < n) ==> r == i
    ensures 0 <= i < n ==> 0 <= r < n
  {
    if 0 <= target && target < n then target else i
  }

  /** The index after `k` successive `nextStep` calls. */
  function AdvanceTimes(n: int, i: int, k: nat): int
    decreases k
  {
    if k == 0 then i else AdvanceTimes(n, NextIndex(n, i), k - 1)
  }

  /** Below the last step, each `nextStep` moves exactly one position. */
  lemma {:induction false} AdvanceCounts(n: int, i: int, k: nat)
    requires 0 <= i && i + k <= n - 1
    ensures AdvanceTimes(n, i, k) == i + k
    decreases k
  {
    if k > 0 {
      AdvanceCounts(n, i + 1, k - 1);
    }
  }

  /** Once at the last step, further `nextStep` calls change nothing. */
  lemma {:induction false} AdvanceStaysAtEnd(n: int, k: nat)
    ensures AdvanceTimes(n, n - 1, k) == n - 1
    decreases k
  {
    if k > 0 {
      AdvanceStaysAtEnd(n, k - 1);
    }
  }

  /** From at or beyond N (a stored index the flow does not check), `nextStep` climbs for ever and never reaches the last step. */
  lemma {:induction false} AdvanceBeyondEnd(n: int, i: int, k: nat)
    requires n <= i
    ensures AdvanceTimes(n, i, k) == i + k
    decreases k
  {
    if k > 0 {
      AdvanceBeyondEnd(n, i + 1, k - 1);
    }
  }

  /**
   * Outside the flow, each call moves the index one position: `prevStep`
   * from N and `nextStep` from -1 land on the last and the first step,
   * while `prevStep` below 0 and `nextStep` at or above N move further out.
   */
  lemma OutOfRangeMoves(n: int, i: int)
    requires n >= 1
    ensures PrevIndex(n) == n - 1 && NextIndex(n, -1) == 0
    ensures i < 0 ==> PrevIndex(i) == i - 1 < 0
    ensures n <= i ==> NextIndex(n, i) == i + 1 > n
  {
  }

  /** From the first step, N-1 calls of `nextStep` reach the last step, and any more are no-ops. */
  lemma WalkToLastStep(n: int, extra: nat)
    requires n >= 1
    ensures AdvanceTimes(n, 0, n - 1) == n - 1
    ensures AdvanceTimes(n, 0, n - 1 + extra) == n - 1
  {
    AdvanceCounts(n, 0, n - 1);
    AdvanceSplit(n, 0, n - 1, extra);
    AdvanceStaysAtEnd(n, extra);
  }

  /** `a + b` calls are `a` calls followed by `b` calls. */
  lemma {:induction false} AdvanceSplit(n: int, i: int, a: nat, b: nat)
    ensures AdvanceTimes(n, i, a + b) == AdvanceTimes(n, AdvanceTimes(n, i, a), b)
    decreases a
  {
    if a > 0 {
      AdvanceSplit(n, NextIndex(n, i), a - 1, b);
    }
  }

  /**
   * `progress` for a flow of `n` steps at index `i`, as a percentage:
   * `i / (n - 1) * 100`, and 0 for an empty flow. A one-step flow divides
   * by zero, which JavaScript turns into NaN or an infinity; that case is None.
   */
  function Progress(n: int, i: int): (p: Option<real>)
    ensures p.None? <==> n == 1
  {
    if n == 0 then Some(0.0)
    else if n == 1 then None
    else Some(i as real / (n - 1) as real * 100.0)
  }

  lemma ProgressEnds(n: int)
    ensures n != 1 ==> Progress(n, 0) == Some(0.0)
    ensures n > 1 ==> Progress(n, n - 1) == Some(100.0)
    ensures n == 0 ==> forall i :: Progress(n, i) == Some(0.0)
  {
    if n > 1 {
      var d := (n - 1) as real;
      assert d / d == 1.0;
    }
  }

  /** Inside the flow, progress stays within 0 .. 100 and grows with the index. */
  lemma ProgressBounded(n: int, i: int, j: int)
    requires n > 1 && 0 <= i < j < n
    ensures 0.0 <= Progress(n, i).value < Progress(n, j).value <= 100.0
  {
  }

  class FlowStore {
    /** The active client's steps, read where the source reads `flowSteps`. */
    const steps: seq<StepId>
    var currentStepIndex: int
    /** What was under the storage key when the store started. */
    ghost const loaded: Option<int>
    /** Every index written to storage, oldest first. */
    ghost var writes: seq<int>

    /** The index storage now holds. */
    ghost function Persisted(): Option<int>
      reads this
    {
      if writes == [] then loaded else Some(writes[|writes| - 1])
    }

    predicate InRange()
      reads this
    {
      0 <= currentStepIndex < |steps|
    }

    /** Storage agrees with memory. */
    ghost predicate Synced()
      reads this
    {
      Persisted() == Some(currentStepIndex)
    }

    /** Starts at the stored index, unchecked against the flow's length, or at 0 with nothing stored. */
    constructor (steps: seq<StepId>, stored: Option<int>)
      ensures this.steps == steps && loaded == stored && writes == []
      ensures stored.None? ==> currentStepIndex == 0
      ensures stored.Some? ==> currentStepIndex == stored.value && Synced()
    {
      this.steps := steps;
      currentStepIndex := if stored.Some? then stored.value else 0;
      loaded := stored;
      writes := [];
    }

    function CurrentStepId(): (s: Option<StepId>)
      reads this
      ensures s.Some? <==> InRange()
      ensures s.Some? ==> s.value == steps[currentStepIndex]
    {
      if 0 <= currentStepIndex < |steps| then Some(steps[currentStepIndex]) else None
    }

    /** At the first step exactly when `prevStep` would be a no-op. */
    function IsFirstStep(): (first: bool)
      reads this
      ensures first <==> PrevIndex(currentStepIndex) == currentStepIndex
    {
      currentStepIndex == 0
    }

    /** At the last step exactly when `nextStep` would be a no-op. */
    function IsLastStep(): (last: bool)
      reads this
      ensures last <==> NextIndex(|steps|, currentStepIndex) == currentStepIndex
    {
      currentStepIndex == |steps| - 1
    }

    function ProgressPercent(): (p: Option<real>)
      reads this
      ensures p.None? <==> |steps| == 1
      ensures |steps| != 1 && IsFirstStep() ==> p == Some(0.0)
      ensures |steps| > 1 && IsLastStep() ==> p == Some(100.0)
      ensures |steps| > 1 && InRange() ==> 0.0 <= p.value <= 100.0
    {
      ProgressEnds(|steps|);
      if |steps| > 1 && InRange() && currentStepIndex < |steps| - 1 then
        ProgressBounded(|steps|, currentStepIndex, |steps| - 1);
        Progress(|steps|, currentStepIndex)
      else
        Progress(|steps|, currentStepIndex)
    }

    function TotalSteps(): (n: nat)
      ensures n == |steps|
    {
      |steps|
    }

    method NextStep()
      modifies this
      ensures currentStepIndex == NextIndex(|steps|, old(currentStepIndex))
      ensures old(IsLastStep()) ==> writes == old(writes)
      ensures !old(IsLastStep()) ==> writes == old(writes) + [currentStepIndex] && Synced()
      ensures old(InRange()) ==> InRange()
      ensures old(Synced()) ==> Synced()
    {
      if !IsLastStep() {
        currentStepIndex := currentStepIndex + 1;
        Persist();
      }
    }

    method PrevStep()
      modifies this
      ensures currentStepIndex == PrevIndex(old(currentStepIndex))
      ensures old(IsFirstStep()) ==> writes == old(writes)
      ensures !old(IsFirstStep()) ==> writes == old(writes) + [currentStepIndex] && Synced()
      ensures old(InRange()) ==> InRange()
      ensures old(Synced()) ==> Synced()
    {
      if !IsFirstStep() {
        currentStepIndex := currentStepIndex - 1;
        Persist();
      }
    }

    method ResetFlow()
      modifies this
      ensures currentStepIndex == 0
      ensures writes == old(writes) + [0] && Synced()
      ensures |steps| > 0 ==> InRange()
    {
      currentStepIndex := 0;
      Persist();
    }

    method SetStep(index: int)
      modifies this
      ensures currentStepIndex == SetIndex(|steps|, old(currentStepIndex), index)
      ensures 0 <= index < |steps| ==> writes == old(writes) + [index] && Synced()
      ensures !(0 <= index < |steps|) ==> writes == old(writes)
      ensures old(InRange()) ==> InRange()
      ensures old(Synced()) ==> Synced()
    {
      if index >= 0 && index < |steps| {
        currentStepIndex := index;
        Persist();
      }
    }

    method Persist()
      modifies this
      ensures currentStepIndex == old(currentStepIndex)
      ensures writes == old(writes) + [currentStepIndex] && Synced()
    {
      writes := writes + [currentStepIndex];
    }
  }

  /** A controller over Lincoln's flow, at its first step, has three steps and shows vehicle details. */
  lemma LincolnScenario(flow: FlowStore)
    requires "lincoln" in CLIENT_CONFIGS && flow.steps == CLIENT_CONFIGS["lincoln"].flow
    requires flow.currentStepIndex == 0
    ensures flow.TotalSteps() == 3
    ensures flow.CurrentStepId() == Some(VehicleDetails)
    ensures flow.IsFirstStep() && !flow.IsLastStep()
  {
  }
}
