/**
 * Derived "has children of kind X" facts of an execution, packed as bits of its
 * cachedEntityState. The bit numbers are a persisted contract.
 *
 * IsBitOn and SetBit stand for a bitmask helper that is not part of this model; they are defined
 * here on the assumption that bit number n (1..32) is the mask 1 << (n - 1) of a 32-bit int.
 */
module ExecutionCachedEntityStateUtil {
  import opened Executions

  const EVENT_SUBSCRIPTIONS_STATE_BIT: int := 1
  const TASKS_STATE_BIT: int := 2
  const JOBS_STATE_BIT: int := 3
  const VARIABLES_STATE_BIT: int := 4

  /** The four bit numbers are pairwise distinct, and so are their masks. */
  lemma StateBitsDistinct()
    ensures |{EVENT_SUBSCRIPTIONS_STATE_BIT, TASKS_STATE_BIT, JOBS_STATE_BIT, VARIABLES_STATE_BIT}| == 4
    ensures Mask(EVENT_SUBSCRIPTIONS_STATE_BIT) == 0x1 && Mask(TASKS_STATE_BIT) == 0x2
    ensures Mask(JOBS_STATE_BIT) == 0x4 && Mask(VARIABLES_STATE_BIT) == 0x8
  {
  }

  /** The assumed meaning of a bit number: bit n is the mask 2^(n-1). */
  function Mask(bitNumber: int): (mask: Int32)
    requires 1 <= bitNumber <= 32
    ensures mask != 0
  {
    (1 as Int32) << (bitNumber - 1)
  }

  predicate IsBitOn(value: Int32, bitNumber: int)
    requires 1 <= bitNumber <= 32
  {
    value & Mask(bitNumber) == Mask(bitNumber)
  }

  /** The value with one bit forced to `on`. */
  function SetBit(value: Int32, bitNumber: int, on: bool): (r: Int32)
    requires 1 <= bitNumber <= 32
    ensures IsBitOn(r, bitNumber) == on
  {
    if on then value | Mask(bitNumber) else value & !Mask(bitNumber)
  }

  predicate HasTasks(e: Execution)
    ensures HasTasks(e) <==> e.cachedEntityState & 0x2 != 0
  {
    IsBitOn(e.cachedEntityState, TASKS_STATE_BIT)
  }

  predicate HasJobs(e: Execution)
    ensures HasJobs(e) <==> e.cachedEntityState & 0x4 != 0
  {
    IsBitOn(e.cachedEntityState, JOBS_STATE_BIT)
  }

  predicate HasEventSubscriptions(e: Execution)
    ensures HasEventSubscriptions(e) <==> e.cachedEntityState & 0x1 != 0
  {
    IsBitOn(e.cachedEntityState, EVENT_SUBSCRIPTIONS_STATE_BIT)
  }

  predicate HasVariables(e: Execution)
    ensures HasVariables(e) <==> e.cachedEntityState & 0x8 != 0
  {
    IsBitOn(e.cachedEntityState, VARIABLES_STATE_BIT)
  }

  /*
   * The setters as written: each computes the new mask for its own bit and drops it, since
   * nothing is assigned back to the entity. The entity is returned as it came in.
   */

  function SetHasTasks(e: Execution, hasTasks: bool): (r: Execution)
    ensures r == e
  {
    var _ := SetBit(e.cachedEntityState, TASKS_STATE_BIT, hasTasks);
    e
  }

  function SetHasJobs(e: Execution, hasJobs: bool): (r: Execution)
    ensures r == e
  {
    var _ := SetBit(e.cachedEntityState, JOBS_STATE_BIT, hasJobs);
    e
  }

  function SetHasEventSubscriptions(e: Execution, hasEventSubscriptions: bool): (r: Execution)
    ensures r == e
  {
    var _ := SetBit(e.cachedEntityState, EVENT_SUBSCRIPTIONS_STATE_BIT, hasEventSubscriptions);
    e
  }

  function SetHasVariables(e: Execution, hasVariables: bool): (r: Execution)
    ensures r == e
  {
    var _ := SetBit(e.cachedEntityState, VARIABLES_STATE_BIT, hasVariables);
    e
  }

  /** As written, setting a flag that is off leaves it off. */
  lemma SetHasTasksIsLost(e: Execution)
    requires e.cachedEntityState == 0
    ensures !HasTasks(SetHasTasks(e, true))
  {
  }

  /*
   * The setters as evidently intended: the new mask is stored in the entity. Each sets its
   * own flag and leaves the other three flags and every other field as they were.
   */

  function WithStateBit(e: Execution, bitNumber: int, on: bool): (r: Execution)
    requires 1 <= bitNumber <= 32
    ensures r.cachedEntityState == SetBit(e.cachedEntityState, bitNumber, on)
    ensures r.(cachedEntityState := e.cachedEntityState) == e
  {
    e.(cachedEntityState := SetBit(e.cachedEntityState, bitNumber, on))
  }

  function SetHasTasksIntended(e: Execution, hasTasks: bool): (r: Execution)
    ensures HasTasks(r) == hasTasks
    ensures HasJobs(r) == HasJobs(e) && HasEventSubscriptions(r) == HasEventSubscriptions(e)
    ensures HasVariables(r) == HasVariables(e)
    ensures r.(cachedEntityState := e.cachedEntityState) == e
  {
    WithStateBit(e, TASKS_STATE_BIT, hasTasks)
  }

  function SetHasJobsIntended(e: Execution, hasJobs: bool): (r: Execution)
    ensures HasJobs(r) == hasJobs
    ensures HasTasks(r) == HasTasks(e) && HasEventSubscriptions(r) == HasEventSubscriptions(e)
    ensures HasVariables(r) == HasVariables(e)
    ensures r.(cachedEntityState := e.cachedEntityState) == e
  {
    WithStateBit(e, JOBS_STATE_BIT, hasJobs)
  }

  function SetHasEventSubscriptionsIntended(e: Execution, hasEventSubscriptions: bool): (r: Execution)
    ensures HasEventSubscriptions(r) == hasEventSubscriptions
    ensures HasTasks(r) == HasTasks(e) && HasJobs(r) == HasJobs(e) && HasVariables(r) == HasVariables(e)
    ensures r.(cachedEntityState := e.cachedEntityState) == e
  {
    WithStateBit(e, EVENT_SUBSCRIPTIONS_STATE_BIT, hasEventSubscriptions)
  }

  function SetHasVariablesIntended(e: Execution, hasVariables: bool): (r: Execution)
    ensures HasVariables(r) == hasVariables
    ensures HasTasks(r) == HasTasks(e) && HasJobs(r) == HasJobs(e)
    ensures HasEventSubscriptions(r) == HasEventSubscriptions(e)
    ensures r.(cachedEntityState := e.cachedEntityState) == e
  {
    WithStateBit(e, VARIABLES_STATE_BIT, hasVariables)
  }
}
