/** The notification entity, its lifecycle statuses, and the errors its ports report. */
module Domain {

  datatype Option<+T> = None | Some(value: T)

  datatype Result<+T, +E> = Success(value: T) | Failure(error: E)

  /** A notification id; only its identity matters. */
  type Id = nat

  /** An instant or a duration in nanoseconds, as in Go's time package. */
  type Nanos = int

  const SECOND: Nanos := 1_000_000_000
  const MINUTE: Nanos := 60 * SECOND

  /** The largest value of the row's INTEGER `attempts` column. */
  const MAX_INT32: int := 0x7fff_ffff

  // ---------------------------------------------------------------------------------------------
  // Statuses
  // ---------------------------------------------------------------------------------------------

  datatype Status = Pending | Queued | Processing | Delivered | Failed | Retrying | Cancelled

  /** The adjacency list of the lifecycle; a status without an entry has no outgoing edge. */
  function ValidTransitions(s: Status): set<Status> {
    match s
    case Pending => {Queued, Cancelled}
    case Queued => {Processing, Cancelled}
    case Processing => {Delivered, Failed, Retrying}
    case Retrying => {Processing, Cancelled}
    case _ => {}
  }

  predicate CanTransitionTo(s: Status, next: Status) {
    next in ValidTransitions(s)
  }

  predicate IsTerminal(s: Status) {
    s.Delivered? || s.Failed? || s.Cancelled?
  }

  /** A path through the lifecycle: each status leads to the next over an edge. */
  ghost predicate IsPath(path: seq<Status>) {
    forall i, j :: 0 <= i && j == i + 1 && j < |path| ==> CanTransitionTo(path[i], path[j])
  }

  /**
   * The shape of the lifecycle over whole paths: a terminal status is the end of its path, a path
   * that starts at pending visits pending and queued only once, and it cannot be delivered, failed
   * or retrying without having been queued and then processing first.
   */
  lemma {:induction false} PathShape(path: seq<Status>, k: nat)
    requires IsPath(path) && k < |path| && path[0] == Pending
    ensures IsTerminal(path[k]) <==> ValidTransitions(path[k]) == {}
    ensures IsTerminal(path[k]) ==> k == |path| - 1
    ensures path[k] == Pending ==> k == 0
    ensures path[k] == Queued ==> k == 1
    ensures path[k] in {Processing, Delivered, Failed, Retrying} ==> k >= 2 && path[1] == Queued && path[2] == Processing
  {
    if k > 0 {
      PathShape(path, k - 1);
      assert CanTransitionTo(path[k - 1], path[k]);
    }
    if k + 1 < |path| {
      assert CanTransitionTo(path[k], path[k + 1]);
    }
  }

  // ---------------------------------------------------------------------------------------------
  // The entity
  // ---------------------------------------------------------------------------------------------

  /**
   * The columns of a notification that change or that a sweep reads: what a row stores, and what an
   * actor holds after reading it.
   */
  datatype Row = Row(
    status: Status,
    attempts: nat,
    lastError: string,
    nextRetryAt: Option<Nanos>,
    scheduledAt: Option<Nanos>,
    createdAt: Nanos,
    updatedAt: Nanos
  )

  /** A notification as NewNotification builds it. */
  function NewRow(scheduledAt: Option<Nanos>, now: Nanos): Row {
    Row(Pending, 0, "", None, scheduledAt, now, now)
  }

  predicate IsNew(n: Row) {
    n == NewRow(n.scheduledAt, n.createdAt)
  }

  function Moved(n: Row, target: Status, now: Nanos): Row {
    n.(status := target, updatedAt := now)
  }

  function MarkedDelivered(n: Row, now: Nanos): Row {
    Moved(n, Delivered, now).(lastError := "")
  }

  function MarkedFailed(n: Row, now: Nanos, reason: string): Row {
    Moved(n, Failed, now).(lastError := reason)
  }

  function MarkedRetrying(n: Row, now: Nanos, reason: string, nextRetryAt: Nanos): Row {
    Moved(n, Retrying, now).(lastError := reason, nextRetryAt := Some(nextRetryAt))
  }

  /** The in-memory entity that the use cases mutate and hand to the repository. */
  class Notification {
    var status: Status
    var attempts: nat
    var lastError: string
    var nextRetryAt: Option<Nanos>
    var updatedAt: Nanos
    const scheduledAt: Option<Nanos>
    const createdAt: Nanos

    ghost function Snapshot(): Row
      reads this
    {
      Row(status, attempts, lastError, nextRetryAt, scheduledAt, createdAt, updatedAt)
    }

    /** An entity read back from a row. */
    constructor (row: Row)
      ensures Snapshot() == row
    {
      status := row.status;
      attempts := row.attempts;
      lastError := row.lastError;
      nextRetryAt := row.nextRetryAt;
      updatedAt := row.updatedAt;
      scheduledAt := row.scheduledAt;
      createdAt := row.createdAt;
    }

    /** Moves along an edge of the lifecycle and stamps the time, or leaves the entity untouched. */
    method Transition(target: Status, now: Nanos) returns (legal: bool)
      modifies this
      ensures legal == CanTransitionTo(old(status), target)
      ensures legal <==> (old(status), target) in {
                (Pending, Queued), (Pending, Cancelled), (Queued, Processing), (Queued, Cancelled), (Processing, Delivered),
                (Processing, Failed), (Processing, Retrying), (Retrying, Processing), (Retrying, Cancelled)}
      ensures legal ==>
                Snapshot() == Row(target, old(attempts), old(lastError), old(nextRetryAt), scheduledAt, createdAt, now)
      ensures Snapshot() == if legal then Moved(old(Snapshot()), target, now) else old(Snapshot())
    {
      legal := CanTransitionTo(status, target);
      if !legal {
        return;
      }
      status := target;
      updatedAt := now;
    }

    method MarkQueued(now: Nanos) returns (legal: bool)
      modifies this
      ensures legal == (old(status) == Pending)
      ensures legal ==>
                Snapshot() == Row(Queued, old(attempts), old(lastError), old(nextRetryAt), scheduledAt, createdAt, now)
      ensures Snapshot() == if legal then Moved(old(Snapshot()), Queued, now) else old(Snapshot())
    {
      legal := Transition(Queued, now);
    }

    method MarkProcessing(now: Nanos) returns (legal: bool)
      modifies this
      ensures legal == (old(status) in {Queued, Retrying})
      ensures legal ==>
                Snapshot() == Row(Processing, old(attempts) + 1, old(lastError), old(nextRetryAt), scheduledAt, createdAt, now)
      ensures legal ==> Snapshot() == Moved(old(Snapshot()), Processing, now).(attempts := old(attempts) + 1)
      ensures !legal ==> Snapshot() == old(Snapshot())
    {
      legal := Transition(Processing, now);
      if legal {
        attempts := attempts + 1;
      }
    }

    method MarkDelivered(now: Nanos) returns (legal: bool)
      modifies this
      ensures legal == (old(status) == Processing)
      ensures legal ==>
                Snapshot() == Row(Delivered, old(attempts), "", old(nextRetryAt), scheduledAt, createdAt, now)
      ensures Snapshot() == if legal then MarkedDelivered(old(Snapshot()), now) else old(Snapshot())
    {
      legal := Transition(Delivered, now);
      if legal {
        lastError := "";
      }
    }

    method MarkFailed(now: Nanos, reason: string) returns (legal: bool)
      modifies this
      ensures legal == (old(status) == Processing)
      ensures legal ==>
                Snapshot() == Row(Failed, old(attempts), reason, old(nextRetryAt), scheduledAt, createdAt, now)
      ensures Snapshot() == if legal then MarkedFailed(old(Snapshot()), now, reason) else old(Snapshot())
    {
      legal := Transition(Failed, now);
      if legal {
        lastError := reason;
      }
    }

    method MarkRetrying(now: Nanos, reason: string, retryAt: Nanos) returns (legal: bool)
      modifies this
      ensures legal == (old(status) == Processing)
      ensures legal ==>
                Snapshot() == Row(Retrying, old(attempts), reason, Some(retryAt), scheduledAt, createdAt, now)
      ensures Snapshot() == if legal then MarkedRetrying(old(Snapshot()), now, reason, retryAt) else old(Snapshot())
    {
      legal := Transition(Retrying, now);
      if legal {
        lastError := reason;
        nextRetryAt := Some(retryAt);
      }
    }

    method Cancel(now: Nanos) returns (legal: bool)
      modifies this
      ensures legal == (old(status) in {Pending, Queued, Retrying})
      ensures legal ==>
                Snapshot() == Row(Cancelled, old(attempts), old(lastError), old(nextRetryAt), scheduledAt, createdAt, now)
      ensures Snapshot() == if legal then Moved(old(Snapshot()), Cancelled, now) else old(Snapshot())
    {
      legal := Transition(Cancelled, now);
    }
  }

  // ---------------------------------------------------------------------------------------------
  // What ports report
  // ---------------------------------------------------------------------------------------------

  datatype LogEvent =
    | LogCreated | LogQueued | LogProcessing | LogDelivered | LogRetrying | LogFailed | LogCancelled

  /** The provider's answer to one send. */
  datatype DeliveryResult = DeliveryResult(success: bool, retryable: bool, reason: string)

  /** Why a use case returned; `Nil` is success, and `PortFailure` any infrastructure error. */
  datatype Error =
    | Nil
    | NotFound
    | AlreadyClaimed
    | ConcurrentUpdate
    | InvalidTransition
    | PortFailure
    | ProviderTransient
    | OutboundRateLimited
    | Crashed
}
