/**
 * The inductive invariant of the protocol. Actors are counted by kind of program counter, so that
 * every conjunct but one is linear arithmetic over a cell's history and a handful of counts.
 */
module Invariant {
  import opened Domain
  import opened RetryPolicy
  import opened Sweeps
  import opened Protocol

  // ---------------------------------------------------------------------------------------------
  // Counting actors
  // ---------------------------------------------------------------------------------------------

  datatype Kind =
    | Uncounted
    | AtCreatedLog
    | AtQueuedLog
    | Fresh          // claimed, processing not yet logged
    | PreSend        // processing logged, send not yet started nor denied
    | Throttled      // denied, not yet written back
    | InFlight       // the provider has the message
    | Replied        // the provider answered, not yet written back
    | AtDeliveredLog
    | AtFailedLog
    | AtRetryingLog
    | AtCancelledLog
    | AtRequeuedLog
    | AtRequeuedEnqueue
    | AtTimeoutLog

  function KindOf(pc: Pc): Kind {
    match pc
    case LoggingCreated(_) => AtCreatedLog
    case LoggingQueued => AtQueuedLog
    case LoggingProcessing(_) => Fresh
    case PublishingProcessing(_) => PreSend
    case AskingLimiter(_) => PreSend
    case ReadyToSend(_) => PreSend
    case Rescheduling(_) => Throttled
    case Sending(_) => InFlight
    case Applying(_, _) => Replied
    case LoggingDelivered => AtDeliveredLog
    case LoggingFailed => AtFailedLog
    case LoggingRetrying(_) => AtRetryingLog
    case LoggingCancelled => AtCancelledLog
    case LoggingRequeued => AtRequeuedLog
    case EnqueuingRequeued => AtRequeuedEnqueue
    case LoggingTimeout => AtTimeoutLog
    case _ => Uncounted
  }

  function Members(actors: map<ActorId, Pc>, k: Kind): set<ActorId> {
    set a | a in actors && KindOf(actors[a]) == k
  }

  function Count(actors: map<ActorId, Pc>, k: Kind): nat {
    |Members(actors, k)|
  }

  function One(b: bool): nat {
    if b then 1 else 0
  }

  lemma SizeAfterChange(before: set<ActorId>, after: set<ActorId>, a: ActorId)
    requires forall b :: b != a ==> (b in before <==> b in after)
    ensures |after| == |before| - One(a in before) + One(a in after)
  {
    var others := before - {a};
    assert before == if a in before then others + {a} else others;
    assert after == if a in after then others + {a} else others;
  }

  /** Moving one actor changes the count of the kind it leaves and of the kind it enters, and no other. */
  lemma CountGoto(actors: map<ActorId, Pc>, a: ActorId, pc: Pc, k: Kind)
    ensures Count(actors[a := pc], k) ==
            Count(actors, k) - One(a in actors && KindOf(actors[a]) == k) + One(KindOf(pc) == k)
  {
    var before, after := Members(actors, k), Members(actors[a := pc], k);
    forall b | b != a
      ensures b in before <==> b in after
    {
    }
    SizeAfterChange(before, after, a);
  }

  lemma CountPositive(actors: map<ActorId, Pc>, a: ActorId)
    requires a in actors
    ensures Count(actors, KindOf(actors[a])) >= 1
  {
    assert a in Members(actors, KindOf(actors[a]));
  }

  lemma CountTwo(actors: map<ActorId, Pc>, a: ActorId, b: ActorId)
    requires a in actors && b in actors && a != b && KindOf(actors[a]) == KindOf(actors[b])
    ensures Count(actors, KindOf(actors[a])) >= 2
  {
    var s := Members(actors, KindOf(actors[a]));
    assert a in s && b in s;
    var rest := s - {a};
    assert b in rest && |rest| >= 1;
  }

  /** How many actors stand at each kind of program counter. */
  datatype Tally = Tally(
    createdLog: int, queuedLog: int,
    claimed: int, preSend: int, throttled: int, inFlight: int, answered: int,
    deliveredLog: int, failedLog: int, retryingLog: int, cancelledLog: int,
    requeuedLog: int, requeuedEnqueue: int, timeoutLog: int
  ) {
    function At(k: Kind): int {
      match k
      case Uncounted => 0
      case AtCreatedLog => createdLog
      case AtQueuedLog => queuedLog
      case Fresh => claimed
      case PreSend => preSend
      case Throttled => throttled
      case InFlight => inFlight
      case Replied => answered
      case AtDeliveredLog => deliveredLog
      case AtFailedLog => failedLog
      case AtRetryingLog => retryingLog
      case AtCancelledLog => cancelledLog
      case AtRequeuedLog => requeuedLog
      case AtRequeuedEnqueue => requeuedEnqueue
      case AtTimeoutLog => timeoutLog
    }

    /** The tally when an actor at kind `from` moves on to kind `to`. */
    function Shift(from: Kind, to: Kind): Tally {
      Tally(
        createdLog - One(from == AtCreatedLog) + One(to == AtCreatedLog),
        queuedLog - One(from == AtQueuedLog) + One(to == AtQueuedLog),
        claimed - One(from == Fresh) + One(to == Fresh),
        preSend - One(from == PreSend) + One(to == PreSend),
        throttled - One(from == Throttled) + One(to == Throttled),
        inFlight - One(from == InFlight) + One(to == InFlight),
        answered - One(from == Replied) + One(to == Replied),
        deliveredLog - One(from == AtDeliveredLog) + One(to == AtDeliveredLog),
        failedLog - One(from == AtFailedLog) + One(to == AtFailedLog),
        retryingLog - One(from == AtRetryingLog) + One(to == AtRetryingLog),
        cancelledLog - One(from == AtCancelledLog) + One(to == AtCancelledLog),
        requeuedLog - One(from == AtRequeuedLog) + One(to == AtRequeuedLog),
        requeuedEnqueue - One(from == AtRequeuedEnqueue) + One(to == AtRequeuedEnqueue),
        timeoutLog - One(from == AtTimeoutLog) + One(to == AtTimeoutLog))
    }

    predicate NonNegative() {
      && createdLog >= 0 && queuedLog >= 0
      && claimed >= 0 && preSend >= 0 && throttled >= 0 && inFlight >= 0 && answered >= 0
      && deliveredLog >= 0 && failedLog >= 0 && retryingLog >= 0 && cancelledLog >= 0
      && requeuedLog >= 0 && requeuedEnqueue >= 0 && timeoutLog >= 0
    }

    predicate AtMost(that: Tally) {
      && createdLog <= that.createdLog && queuedLog <= that.queuedLog
      && claimed <= that.claimed && preSend <= that.preSend && throttled <= that.throttled
      && inFlight <= that.inFlight && answered <= that.answered
      && deliveredLog <= that.deliveredLog && failedLog <= that.failedLog && retryingLog <= that.retryingLog
      && cancelledLog <= that.cancelledLog
      && requeuedLog <= that.requeuedLog && requeuedEnqueue <= that.requeuedEnqueue && timeoutLog <= that.timeoutLog
    }

    /** The workers between a committed claim and the write that ends it. */
    function Window(): int {
      claimed + preSend + throttled + inFlight + answered
    }
  }

  const NOBODY := Tally(0, 0, 0, 0, 0, 0, 0, 0, 0, 0, 0, 0, 0, 0)

  /** The tally is that of these actors. */
  ghost predicate Counts(t: Tally, actors: map<ActorId, Pc>) {
    t.NonNegative() && forall k: Kind | k != Uncounted :: t.At(k) == Count(actors, k)
  }

  lemma ShiftAt(t: Tally, from: Kind, to: Kind, j: Kind)
    ensures t.Shift(from, to).At(j) == if j == Uncounted then 0 else t.At(j) - One(from == j) + One(to == j)
  {
  }

  lemma AllNonNegative(t: Tally)
    requires forall k: Kind :: t.At(k) >= 0
    ensures t.NonNegative()
  {
    assert t.At(AtCreatedLog) >= 0 && t.At(AtQueuedLog) >= 0;
    assert t.At(Fresh) >= 0 && t.At(PreSend) >= 0 && t.At(Throttled) >= 0 && t.At(InFlight) >= 0 && t.At(Replied) >= 0;
    assert t.At(AtDeliveredLog) >= 0 && t.At(AtFailedLog) >= 0 && t.At(AtRetryingLog) >= 0 && t.At(AtCancelledLog) >= 0;
    assert t.At(AtRequeuedLog) >= 0 && t.At(AtRequeuedEnqueue) >= 0 && t.At(AtTimeoutLog) >= 0;
  }

  lemma CountsGoto(t: Tally, actors: map<ActorId, Pc>, a: ActorId, pc: Pc, from: Kind, to: Kind)
    requires Counts(t, actors) && a in actors && KindOf(actors[a]) == from && KindOf(pc) == to
    ensures Counts(t.Shift(from, to), actors[a := pc])
    ensures from == Uncounted || t.At(from) >= 1
  {
    var t' := t.Shift(from, to);
    forall j: Kind
      ensures t'.At(j) == (if j == Uncounted then 0 else Count(actors[a := pc], j))
    {
      CountGoto(actors, a, pc, j);
      ShiftAt(t, from, to, j);
    }
    AllNonNegative(t');
    CountPositive(actors, a);
  }

  lemma CountsSpawn(t: Tally, actors: map<ActorId, Pc>, a: ActorId, pc: Pc)
    requires Counts(t, actors) && (a in actors ==> KindOf(actors[a]) == Uncounted) && KindOf(pc) == Uncounted
    ensures Counts(t, actors[a := pc])
  {
    forall j: Kind | j != Uncounted
      ensures t.At(j) == Count(actors[a := pc], j)
    {
      CountGoto(actors, a, pc, j);
    }
  }

  predicate InWindow(pc: Pc) {
    KindOf(pc) in {Fresh, PreSend, Throttled, InFlight, Replied}
  }

  // ---------------------------------------------------------------------------------------------
  // The invariant
  // ---------------------------------------------------------------------------------------------

  /** Before the row exists nothing has happened to it. */
  predicate Untouched(h: History, t: Tally) {
    h == NOTHING.(tasks := h.tasks, broadcasts := h.broadcasts, hints := h.hints) && t == NOBODY
  }

  /** Who may be between claim and write, and what `attempts` counts. */
  predicate Ownership(h: History, r: Row, t: Tally) {
    && t.Window() <= One(r.status == Processing || r.status == Failed)
    && t.Window() <= h.claims
    && r.attempts <= h.claims
    && (!IsTerminal(r.status) ==> r.attempts == h.claims)
    && (r.status == Pending || r.status == Queued ==> h.claims == 0)
    && (r.status == Processing || r.status == Retrying ==> h.claims >= 1)
  }

  /** How claims split into sends, denials and the claim in progress. */
  predicate Spending(h: History, r: Row, t: Tally) {
    && h.denials + h.sends + t.claimed + t.preSend <= h.claims <= h.denials + h.sends + 1
    && (t.throttled + t.inFlight + t.answered >= 1 || r.status == Retrying ==> h.claims <= h.denials + h.sends)
    && h.sends <= 5
    && (h.sends == 5 ==> h.claims <= h.denials + 5)
    && (t.claimed + t.preSend + t.throttled >= 1 || r.status == Retrying ==> h.sends <= 4)
  }

  /** When a send may have succeeded, and who failed a row that a worker had not finished. */
  predicate SuccessOnce(h: History, r: Row, t: Tally) {
    && h.successes <= 1 && h.successes + t.inFlight <= h.sends
    && (h.successes == 1 ==> t.claimed + t.preSend + t.throttled + t.inFlight == 0)
    && (h.successes == 1 ==> r.status == Processing || r.status == Delivered || r.status == Failed)
    && (r.status == Delivered ==> h.successes == 1)
    && (r.status == Failed && h.successes + t.Window() >= 1 ==> h.timeouts == 1)
  }

  /** The audit trail, with the entries that actors are still about to append. */
  predicate Trail(h: History, r: Row, t: Tally) {
    && h.log[LogCreated] + t.createdLog <= 1
    && h.log[LogQueued] + t.queuedLog + t.requeuedLog <= h.moves[(Pending, Queued)]
    && h.log[LogProcessing] + t.claimed <= h.claims
    && h.log[LogDelivered] + t.deliveredLog + h.log[LogRetrying] + t.retryingLog
       + t.preSend + t.throttled + t.inFlight + t.answered <= h.log[LogProcessing]
    && h.log[LogDelivered] + t.deliveredLog <= One(r.status == Delivered)
    && h.log[LogFailed] + t.failedLog + t.timeoutLog <= One(r.status == Failed)
    && h.log[LogCancelled] + t.cancelledLog <= One(r.status == Cancelled)
  }

  /** Committed status changes, and the reconcilers' share of them. */
  predicate Moves(h: History, r: Row, t: Tally) {
    && h.moves[(Pending, Queued)] <= One(r.status != Pending)
    && h.moves[(Processing, Delivered)] == One(r.status == Delivered)
    && h.moves[(Processing, Failed)] == One(r.status == Failed)
    && h.moves[(Pending, Cancelled)] + h.moves[(Queued, Cancelled)] + h.moves[(Retrying, Cancelled)] == One(r.status == Cancelled)
    && h.moves[(Queued, Processing)] + h.moves[(Retrying, Processing)] == h.claims
    && h.timeouts <= h.moves[(Processing, Failed)]
    && h.requeues <= h.moves[(Pending, Queued)]
    && h.timeoutCounts + t.timeoutLog <= h.timeouts
    && h.requeueCounts + t.requeuedLog + t.requeuedEnqueue <= h.requeues
  }

  /** What the history, the row and the actors say about each other. */
  predicate Accounts(h: History, r: Row, t: Tally) {
    Ownership(h, r, t) && Spending(h, r, t) && SuccessOnce(h, r, t) && Trail(h, r, t) && Moves(h, r, t)
  }

  /** The timestamps a sweep relies on. */
  predicate Clocks(r: Row) {
    && (r.status == Pending ==> r.createdAt == r.updatedAt)
    && (r.status == Retrying ==> r.nextRetryAt.Some? && 1 * SECOND <= r.nextRetryAt.value - r.updatedAt <= 240 * SECOND)
  }

  /** What the entity in an actor's hands is worth. */
  predicate Holds(h: History, pc: Pc) {
    match pc
    case Inserting(n) => IsNew(n)
    case LoggingCreated(n) => IsNew(n)
    case Enqueuing(n) => IsNew(n)
    case MarkingQueued(n) => IsNew(n)
    case LoggingProcessing(n) => n.status == Processing && n.attempts == h.claims
    case PublishingProcessing(n) => n.status == Processing && n.attempts == h.claims
    case AskingLimiter(n) => n.status == Processing && n.attempts == h.claims
    case Rescheduling(n) => n.status == Processing && n.attempts == h.claims
    case ReadyToSend(n) => n.status == Processing && n.attempts == h.claims
    case Sending(n) => n.status == Processing && n.attempts == h.claims
    case Applying(n, result) => n.status == Processing && n.attempts == h.claims && (result.success <==> h.successes == 1)
    case Cancelling(n, _) => (n.status == Pending || n.status == Queued || n.status == Retrying) && n.attempts <= h.claims
    case Requeuing(n, _) => n.status == Pending && n.attempts == 0
    case TimingOut(n, _) => n.status == Processing && n.attempts <= h.claims
    case _ => true
  }

  ghost predicate Holding(c: Cell) {
    forall a | a in c.actors :: Holds(c.h, c.actors[a])
  }

  predicate Numbers(row: Option<Row>, h: History, t: Tally) {
    match row
    case None => Untouched(h, t)
    case Some(r) => Accounts(h, r, t) && Clocks(r)
  }

  ghost predicate Inv(c: Cell) {
    Holding(c) && exists t :: Counts(t, c.actors) && Numbers(c.row, c.h, t)
  }

  /** The tally whose existence the invariant asserts. */
  lemma TallyOf(c: Cell) returns (t: Tally)
    requires Inv(c)
    ensures Counts(t, c.actors) && Numbers(c.row, c.h, t) && t.NonNegative() && Holding(c)
  {
    t :| Counts(t, c.actors) && Numbers(c.row, c.h, t);
  }
}
