/** Settings shared by both Redis layouts. */
module Retry {
  datatype Option<T> = None | Some(value: T)

  /** The dead-letter configuration: none, or the `max_receives` of `DeadLetterQueueConfig`. */
  type Limit = Option<nat>

  /** `max_retries_reached` */
  predicate AtLimit(limit: Limit, receives: nat) {
    limit.Some? && receives >= limit.value
  }

  /** How many keys one sweep of the list backend looks at. */
  const SWEEP_BATCH: nat := 50

  /** How many delayed messages one pass of the mover takes. */
  const MOVE_BATCH: nat := 50

  /** `LRANGE dlq 0 50` includes both ends. */
  const REDRIVE_BATCH: nat := 51

  /** The least number a limit of deliveries or messages comes to. */
  function Max1(n: nat): nat { if n > 1 then n else 1 }
}
