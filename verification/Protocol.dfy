/**
 * The life of one notification as a protocol: one row, an append-only log, and any number of actors
 * (creators, workers, cancellers, reconcilers) that each take one port call at a time. An actor
 * holds a possibly stale copy of the row between two calls; every call may fail, a write may commit
 * and still be reported as an error, and an actor may stop between any two calls. Clock readings
 * are arbitrary, so nothing below relies on synchronized clocks, and a worker may start at any
 * time, which covers every loss, duplication or reordering of queue tasks.
 */
module Protocol {
  import opened Domain
  import opened RetryPolicy
  import opened Sweeps

  type ActorId = nat

  /** The fate of a write: committed and acknowledged, committed but reported as failed, or not committed. */
  datatype Ack = Done | Lost | Refused

  datatype Verdict = Allowed | Denied | Unavailable

  /** The next port call of an actor, with the in-memory entity it holds. */
  datatype Pc =
    // create one notification, or one member of a batch
    | Inserting(n: Row)
    | LoggingCreated(n: Row)
    | Enqueuing(n: Row)
    | MarkingQueued(n: Row)
    | LoggingQueued
    // process
    | Claiming
    | LoggingProcessing(n: Row)
    | PublishingProcessing(n: Row)
    | AskingLimiter(n: Row)
    | Rescheduling(n: Row)
    | ReadyToSend(n: Row)
    | Sending(n: Row)
    | Applying(n: Row, result: DeliveryResult)
    | LoggingDelivered
    | LoggingFailed
    | LoggingRetrying(cause: Error)
    | PublishingOutcome(cause: Error)
    // cancel
    | Reading
    | Cancelling(n: Row, at: Nanos)
    | LoggingCancelled
    | DroppingTask
    // reconcile
    | Scanning
    | Requeuing(n: Row, at: Nanos)
    | LoggingRequeued
    | EnqueuingRequeued
    | TimingOut(n: Row, at: Nanos)
    | LoggingTimeout
    | Reenqueuing
    // returned
    | Stopped(err: Error)

  /** What has happened to one notification so far. */
  datatype History = History(
    log: multiset<LogEvent>,
    claims: nat,      // committed claims
    sends: nat,       // provider sends started
    successes: nat,   // sends that returned success
    denials: nat,     // outbound rate-limit denials
    moves: multiset<(Status, Status)>, // committed status changes
    timeouts: nat,    // status changes made by the stuck-processing handler
    requeues: nat,    // status changes made by the orphaned-pending handler
    timeoutCounts: nat, // how often this row was counted in StuckProcessingFailed
    requeueCounts: nat, // how often this row was counted in OrphanedPendingReenqueued
    stuckCounted: set<ActorId>,   // the reconcilers that counted it in StuckProcessingFailed
    requeueCounted: set<ActorId>, // the reconcilers that counted it in OrphanedPendingReenqueued
    tasks: nat,       // tasks put on the queue
    broadcasts: nat,  // status updates published
    hints: nat        // queued tasks asked to be dropped
  )

  /** Everything about one notification: its row, its actors, and its history. */
  datatype Cell = Cell(row: Option<Row>, actors: map<ActorId, Pc>, h: History)

  const NOTHING := History(multiset{}, 0, 0, 0, 0, multiset{}, 0, 0, 0, 0, {}, {}, 0, 0, 0)
  const EMPTY := Cell(None, map[], NOTHING)

  datatype Event =
    | Spawn(a: ActorId, entry: Pc)
    | Crash(a: ActorId)
    | Insert(a: ActorId, ack: Ack)
    | Claim(a: ActorId, now: Nanos, ack: Ack)
    | Append(a: ActorId, ack: Ack)
    | Publish(a: ActorId, ok: bool)
    | Limit(a: ActorId, verdict: Verdict)
    | SendStart(a: ActorId)
    | SendReturn(a: ActorId, result: DeliveryResult)
    | Update(a: ActorId, now: Nanos, ack: Ack)
    | Enqueue(a: ActorId, ok: bool)
    | Get(a: ActorId, now: Nanos, ok: bool)
    | Select(a: ActorId, sweep: Sweep, now: Nanos)
    | DropTask(a: ActorId, ok: bool)

  /** A guarded status write: the mutated entity, the status it expects, and where an acknowledgement leads. */
  datatype Write = Write(n: Row, source: Status, next: Pc)

  // ---------------------------------------------------------------------------------------------
  // What each program counter does
  // ---------------------------------------------------------------------------------------------

  predicate IsEntry(pc: Pc) {
    pc.Claiming? || pc.Reading? || pc.Scanning? || (pc.Inserting? && IsNew(pc.n))
  }

  /** The statuses from which the atomic claim takes a row. */
  predicate Claimable(r: Row) {
    r.status == Queued || r.status == Retrying
  }

  function ClaimedRow(r: Row, now: Nanos): Row {
    r.(status := Processing, updatedAt := now, attempts := r.attempts + 1)
  }

  /** The provider's answer mapped onto the lifecycle. */
  function OutcomeWrite(n: Row, result: DeliveryResult, now: Nanos): Write {
    if result.success then
      Write(MarkedDelivered(n, now), Processing, LoggingDelivered)
    else if !result.retryable || n.attempts >= DEFAULT_MAX_ATTEMPTS then
      Write(MarkedFailed(n, now, result.reason), Processing, LoggingFailed)
    else
      Write(MarkedRetrying(n, now, result.reason, now + BackoffFor(n.attempts)), Processing, LoggingRetrying(ProviderTransient))
  }

  function DenialWrite(n: Row, now: Nanos): Write {
    Write(MarkedRetrying(n, now, "outbound rate limit exceeded", now + RATE_LIMIT_BACKOFF), Processing, LoggingRetrying(OutboundRateLimited))
  }

  /** The guarded write an actor is about to issue; `now` is the clock read just before it. */
  function WriteOf(pc: Pc, now: Nanos): Option<Write> {
    match pc
    case MarkingQueued(n) => Some(Write(Moved(n, Queued, n.createdAt), Pending, LoggingQueued))
    case Rescheduling(n) => Some(DenialWrite(n, now))
    case Applying(n, result) => Some(OutcomeWrite(n, result, now))
    case Cancelling(n, at) => Some(Write(Moved(n, Cancelled, at), n.status, LoggingCancelled))
    case Requeuing(n, at) => Some(Write(Moved(n, Queued, at), Pending, LoggingRequeued))
    case TimingOut(n, at) => Some(Write(MarkedFailed(n, at, "worker_timeout"), Processing, LoggingTimeout))
    case _ => None
  }

  /** The UPDATE's SET list: scheduled_at and created_at stay as stored. */
  function Written(r: Row, n: Row): Row {
    r.(status := n.status, attempts := n.attempts, lastError := n.lastError,
       nextRetryAt := n.nextRetryAt, updatedAt := n.updatedAt)
  }

  function EventOf(pc: Pc): Option<LogEvent> {
    match pc
    case LoggingCreated(_) => Some(LogCreated)
    case LoggingQueued => Some(LogQueued)
    case LoggingProcessing(_) => Some(LogProcessing)
    case LoggingDelivered => Some(LogDelivered)
    case LoggingFailed => Some(LogFailed)
    case LoggingRetrying(_) => Some(LogRetrying)
    case LoggingCancelled => Some(LogCancelled)
    case LoggingRequeued => Some(LogQueued)
    case LoggingTimeout => Some(LogFailed)
    case _ => None
  }

  function AfterAppend(pc: Pc): Pc {
    match pc
    case LoggingCreated(n) => Enqueuing(n)
    case LoggingProcessing(n) => PublishingProcessing(n)
    case LoggingDelivered => PublishingOutcome(Nil)
    case LoggingFailed => PublishingOutcome(Nil)
    case LoggingRetrying(cause) => PublishingOutcome(cause)
    case LoggingCancelled => DroppingTask
    case LoggingRequeued => EnqueuingRequeued
    case _ => Stopped(Nil)
  }

  /** What a canceller does with the row it read. */
  function AfterGet(r: Row, now: Nanos): Pc {
    if CanTransitionTo(r.status, Cancelled) then Cancelling(r, now) else Stopped(InvalidTransition)
  }

  /** What a reconciler does with a row its SELECT returned. */
  function AfterSelect(sweep: Sweep, r: Row, now: Nanos): Pc {
    match sweep
    case OrphanedPending => Requeuing(r, now)
    case StuckProcessing => TimingOut(r, now)
    case _ => Reenqueuing
  }

  // ---------------------------------------------------------------------------------------------
  // One step
  // ---------------------------------------------------------------------------------------------

  function Goto(c: Cell, a: ActorId, pc: Pc): Cell {
    c.(actors := c.actors[a := pc])
  }

  function Inserted(c: Cell, a: ActorId, n: Row, ack: Ack): Cell {
    if ack.Refused? || c.row.Some? then Goto(c, a, Stopped(PortFailure))
    else Cell(Some(n), c.actors[a := if ack.Done? then LoggingCreated(n) else Stopped(PortFailure)], c.h)
  }

  function OneMore<T(==)>(m: multiset<T>, x: T): multiset<T> {
    m[x := m[x] + 1]
  }

  function AfterClaim(h: History, from: Status): History {
    h.(claims := h.claims + 1, moves := OneMore(h.moves, (from, Processing)))
  }

  function Claimed(c: Cell, a: ActorId, now: Nanos, ack: Ack): Cell {
    if ack.Refused? then Goto(c, a, Stopped(PortFailure))
    else if c.row.None? then Goto(c, a, Stopped(NotFound))
    else if !Claimable(c.row.value) then Goto(c, a, Stopped(AlreadyClaimed))
    else if c.row.value.attempts >= MAX_INT32 then Goto(c, a, Stopped(PortFailure)) // integer out of range
    else
      var r := ClaimedRow(c.row.value, now);
      var pc := if ack.Done? then LoggingProcessing(r) else Stopped(PortFailure);
      Cell(Some(r), c.actors[a := pc], AfterClaim(c.h, c.row.value.status))
  }

  function AfterEntry(h: History, a: ActorId, pc: Pc, event: LogEvent, acked: bool): History {
    var h' := h.(log := OneMore(h.log, event));
    if pc.LoggingTimeout? && acked
    then h'.(timeoutCounts := h.timeoutCounts + 1, stuckCounted := h.stuckCounted + {a})
    else h'
  }

  function Appended(c: Cell, a: ActorId, pc: Pc, event: LogEvent, ack: Ack): Cell {
    if ack.Refused? then Goto(c, a, Stopped(PortFailure))
    else
      var pc' := if ack.Done? then AfterAppend(pc) else Stopped(PortFailure);
      Cell(c.row, c.actors[a := pc'], AfterEntry(c.h, a, pc, event, ack.Done?))
  }

  /** The guard compares nothing but the status. */
  predicate GuardHolds(row: Option<Row>, source: Status) {
    row.Some? && row.value.status == source
  }

  function AfterWrite(h: History, pc: Pc, w: Write): History {
    h.(moves := OneMore(h.moves, (w.source, w.n.status)),
       timeouts := if pc.TimingOut? then h.timeouts + 1 else h.timeouts,
       requeues := if pc.Requeuing? then h.requeues + 1 else h.requeues)
  }

  function Updated(c: Cell, a: ActorId, pc: Pc, w: Write, ack: Ack): Cell {
    if ack.Refused? then Goto(c, a, Stopped(PortFailure))
    else if !GuardHolds(c.row, w.source) then Goto(c, a, Stopped(ConcurrentUpdate))
    else
      var pc' := if ack.Done? then w.next else Stopped(PortFailure);
      Cell(Some(Written(c.row.value, w.n)), c.actors[a := pc'], AfterWrite(c.h, pc, w))
  }

  function AfterRequeue(h: History, a: ActorId): History {
    h.(requeueCounts := h.requeueCounts + 1, requeueCounted := h.requeueCounted + {a}, tasks := h.tasks + 1)
  }

  function AfterTask(h: History): History {
    h.(tasks := h.tasks + 1)
  }

  function AfterBroadcast(h: History): History {
    h.(broadcasts := h.broadcasts + 1)
  }

  function AfterHint(h: History): History {
    h.(hints := h.hints + 1)
  }

  function Enqueued(c: Cell, a: ActorId, pc: Pc, ok: bool): Option<Cell> {
    if !(pc.Enqueuing? || pc.EnqueuingRequeued? || pc.Reenqueuing?) then None
    else if !ok then Some(Goto(c, a, Stopped(PortFailure)))
    else match pc
      case Enqueuing(n) => Some(Cell(c.row, c.actors[a := MarkingQueued(n)], AfterTask(c.h)))
      case EnqueuingRequeued =>
        Some(Cell(c.row, c.actors[a := Stopped(Nil)], AfterRequeue(c.h, a)))
      case _ => Some(Cell(c.row, c.actors[a := Stopped(Nil)], AfterTask(c.h)))
  }

  function Published(c: Cell, a: ActorId, pc: Pc, ok: bool): Option<Cell> {
    if !(pc.PublishingProcessing? || pc.PublishingOutcome?) then None
    else if !ok then Some(Goto(c, a, Stopped(PortFailure)))
    else
      var pc' := if pc.PublishingProcessing? then AskingLimiter(pc.n) else Stopped(pc.cause);
      Some(Cell(c.row, c.actors[a := pc'], AfterBroadcast(c.h)))
  }

  function Dropped(c: Cell, a: ActorId, ok: bool): Cell {
    if ok then Cell(c.row, c.actors[a := Stopped(Nil)], AfterHint(c.h)) else Goto(c, a, Stopped(PortFailure))
  }

  function Limited(c: Cell, a: ActorId, n: Row, verdict: Verdict): Cell {
    match verdict
    case Allowed => Goto(c, a, ReadyToSend(n))
    case Denied => Cell(c.row, c.actors[a := Rescheduling(n)], c.h.(denials := c.h.denials + 1))
    case Unavailable => Goto(c, a, Stopped(PortFailure))
  }

  function Handed(c: Cell, a: ActorId, n: Row): Cell {
    Cell(c.row, c.actors[a := Sending(n)], c.h.(sends := c.h.sends + 1))
  }

  function AfterAnswer(h: History, result: DeliveryResult): History {
    h.(successes := if result.success then h.successes + 1 else h.successes)
  }

  function Answered(c: Cell, a: ActorId, n: Row, result: DeliveryResult): Cell {
    Cell(c.row, c.actors[a := Applying(n, result)], AfterAnswer(c.h, result))
  }

  function Read(c: Cell, a: ActorId, now: Nanos, ok: bool): Cell {
    if !ok then Goto(c, a, Stopped(PortFailure))
    else if c.row.None? then Goto(c, a, Stopped(NotFound))
    else Goto(c, a, AfterGet(c.row.value, now))
  }

  /** The cell after an event, or `None` when the event's actor is not at that port call. */
  function Apply(c: Cell, e: Event): Option<Cell> {
    if e.Spawn? then
      if IsEntry(e.entry) && (e.a !in c.actors || c.actors[e.a].Stopped?) then Some(Goto(c, e.a, e.entry)) else None
    else if e.a !in c.actors then None
    else
      var pc := c.actors[e.a];
      match e
      case Crash(a) => Some(Goto(c, a, Stopped(Crashed)))
      case Insert(a, ack) => if pc.Inserting? then Some(Inserted(c, a, pc.n, ack)) else None
      case Claim(a, now, ack) => if pc.Claiming? then Some(Claimed(c, a, now, ack)) else None
      case Append(a, ack) => if EventOf(pc).Some? then Some(Appended(c, a, pc, EventOf(pc).value, ack)) else None
      case Publish(a, ok) => Published(c, a, pc, ok)
      case Limit(a, verdict) => if pc.AskingLimiter? then Some(Limited(c, a, pc.n, verdict)) else None
      case SendStart(a) => if pc.ReadyToSend? then Some(Handed(c, a, pc.n)) else None
      case SendReturn(a, result) => if pc.Sending? then Some(Answered(c, a, pc.n, result)) else None
      case Update(a, now, ack) => if WriteOf(pc, now).Some? then Some(Updated(c, a, pc, WriteOf(pc, now).value, ack)) else None
      case Enqueue(a, ok) => Enqueued(c, a, pc, ok)
      case Get(a, now, ok) => if pc.Reading? then Some(Read(c, a, now, ok)) else None
      case Select(a, sweep, now) =>
        if pc.Scanning? && c.row.Some? && Eligible(sweep, c.row.value, now)
        then Some(Goto(c, a, AfterSelect(sweep, c.row.value, now)))
        else None
      case DropTask(a, ok) => if pc.DroppingTask? then Some(Dropped(c, a, ok)) else None
  }

  // ---------------------------------------------------------------------------------------------
  // Runs
  // ---------------------------------------------------------------------------------------------

  /** One atomic step of some actor. */
  ghost predicate Next(c: Cell, c': Cell) {
    exists e :: Apply(c, e) == Some(c')
  }

  /** A run: the successive cells of one notification, from the empty one on. */
  ghost predicate IsRun(run: seq<Cell>) {
    |run| > 0 &&
    if |run| == 1 then run[0] == EMPTY
    else IsRun(run[..|run| - 1]) && Next(run[|run| - 2], run[|run| - 1])
  }

  lemma {:induction false} RunStep(run: seq<Cell>, i: nat)
    requires IsRun(run) && i + 1 < |run|
    ensures Next(run[i], run[i + 1])
  {
    if i + 2 < |run| {
      var front := run[..|run| - 1];
      RunStep(front, i);
      assert front[i] == run[i] && front[i + 1] == run[i + 1];
    }
  }

  lemma RunExtend(run: seq<Cell>, c: Cell)
    requires IsRun(run) && Next(run[|run| - 1], c)
    ensures IsRun(run + [c])
  {
    var longer := run + [c];
    assert longer[..|longer| - 1] == run;
  }
}
