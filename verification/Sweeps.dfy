/** The reconciler's four sweep predicates over one row. */
module Sweeps {
  import opened Domain
  import opened RetryPolicy

  const ORPHANED_PENDING_THRESHOLD: Nanos := 5 * MINUTE
  const STUCK_PROCESSING_THRESHOLD: Nanos := 5 * MINUTE
  const STUCK_QUEUED_THRESHOLD: Nanos := 5 * MINUTE
  const RECONCILER_BATCH_SIZE: nat := 100

  datatype Sweep = OrphanedPending | StuckProcessing | OverdueRetrying | StuckQueued

  function Threshold(sweep: Sweep): Nanos {
    match sweep
    case OrphanedPending => ORPHANED_PENDING_THRESHOLD
    case StuckProcessing => STUCK_PROCESSING_THRESHOLD
    case OverdueRetrying => OVERDUE_RETRYING_THRESHOLD
    case StuckQueued => STUCK_QUEUED_THRESHOLD
  }

  /** The status a sweep selects. */
  function Target(sweep: Sweep): Status {
    match sweep
    case OrphanedPending => Pending
    case StuckProcessing => Processing
    case OverdueRetrying => Retrying
    case StuckQueued => Queued
  }

  /** The column a sweep compares with its cutoff and orders by. */
  function SortKey(sweep: Sweep, r: Row): Nanos {
    match sweep
    case OrphanedPending => r.createdAt
    case StuckProcessing => r.updatedAt
    case OverdueRetrying => if r.nextRetryAt.Some? then r.nextRetryAt.value else 0
    case StuckQueued => r.updatedAt
  }

  /** The WHERE clause of a sweep run by a reconciler whose clock reads `now`. */
  predicate Eligible(sweep: Sweep, r: Row, now: Nanos) {
    && r.status == Target(sweep)
    && SortKey(sweep, r) < now - Threshold(sweep)
    && (sweep.OverdueRetrying? ==> r.nextRetryAt.Some?)
    && (sweep.StuckQueued? && r.scheduledAt.Some? ==> r.scheduledAt.value < now - Threshold(sweep))
  }

  /** The rules in nanoseconds: which rows a sweep takes and by what it orders them. */
  lemma SweepRules(r: Row, now: Nanos)
    ensures Eligible(OrphanedPending, r, now) <==> r.status == Pending && r.createdAt + 300_000_000_000 < now
    ensures Eligible(StuckProcessing, r, now) <==> r.status == Processing && r.updatedAt + 300_000_000_000 < now
    ensures Eligible(OverdueRetrying, r, now) <==>
            r.status == Retrying && r.nextRetryAt.Some? && r.nextRetryAt.value + 600_000_000_000 < now
    ensures Eligible(StuckQueued, r, now) <==>
            && r.status == Queued && r.updatedAt + 300_000_000_000 < now
            && (r.scheduledAt.Some? ==> r.scheduledAt.value + 300_000_000_000 < now)
    ensures SortKey(OrphanedPending, r) == r.createdAt
    ensures SortKey(StuckProcessing, r) == SortKey(StuckQueued, r) == r.updatedAt
    ensures r.nextRetryAt.Some? ==> SortKey(OverdueRetrying, r) == r.nextRetryAt.value
  {
  }
}
