/**
 * The use cases that create, process and cancel one notification, written as the sequences of port
 * calls they are. Each call may only be made by an actor at the matching program counter with the
 * matching entity, so these methods verify exactly when their control flow and the entities they
 * mutate follow the protocol; every guarantee about runs of the protocol then holds for them,
 * however their steps interleave with those of others.
 */
module UseCases {
  import opened Domain
  import opened RetryPolicy
  import opened Sweeps
  import opened Protocol
  import opened Ports
  import opened Lasting

  // ---------------------------------------------------------------------------------------------
  // ProcessNotification
  // ---------------------------------------------------------------------------------------------

  /** Appends to the log and tells the subscribers; `pc` is where the caller stands. */
  method RecordEvent(w: World, id: Id, me: ActorId, event: LogEvent, ghost pc: Pc) returns (err: Error)
    requires w.Valid() && w.At(id, me, pc) && EventOf(pc) == Some(event)
    requires AfterAppend(pc).PublishingProcessing? || AfterAppend(pc).PublishingOutcome?
    modifies w
    ensures w.Valid() && Extends(old(w.runs), w.runs)
    ensures var next := AfterAppend(pc);
            w.At(id, me, if !err.Nil? then Stopped(err)
                         else if next.PublishingProcessing? then AskingLimiter(next.n) else Stopped(next.cause))
    ensures err in {Nil, PortFailure} && (w.reliable ==> err.Nil?)
    ensures err.Nil? ==> w.cells[id].h.broadcasts > old(w.cells)[id].h.broadcasts
    ensures err.Nil? ==> Logged(w.runs[id], event)
    ensures w.alone ==> w.cells[id].row == old(w.cells[id].row)
  {
    hide IsRun, Apply, Extends, Elsewhere, BackoffFor, Logged;
    LastCell(w, id);
    err := w.AppendLog(id, me, event, pc);
    if !err.Nil? {
      return;
    }
    SignalsKept(w, id, old(w.runs), old(w.cells)[id]);
    label appended:
    err := w.Broadcast(id, me, AfterAppend(pc));
    ExtendsTransitively(old(w.runs), old@appended(w.runs), w.runs);
    if err.Nil? {
      StillLogged(old@appended(w.runs), w.runs, id, event);
    }
  }

  /** In part of a run the row was put back to retrying, at `now`, for the reason `why` stands for. */
  ghost predicate PutBack(before: seq<Cell>, after: seq<Cell>, now: Nanos, why: Error) {
    exists n: Row ::
      && Landed(before, after, n) && n.status == Retrying && n.updatedAt == now
      && (why.OutboundRateLimited? || n.attempts < DEFAULT_MAX_ATTEMPTS)
      && n.nextRetryAt == Some(now + if why.OutboundRateLimited? then RATE_LIMIT_BACKOFF else BackoffFor(n.attempts))
  }

  /** What the row and the log say when a delivery ends without error. */
  predicate Finished(c: Cell) {
    && c.row.Some? && c.row.value.status in {Delivered, Failed}
    && c.h.log[if c.row.value.status == Delivered then LogDelivered else LogFailed] == 1
  }

  lemma FinishedMeans(c: Cell)
    requires Finished(c)
    ensures c.row.Some? && (c.row.value.status == Delivered ==> c.h.log[LogDelivered] == 1)
    ensures c.row.value.status == Failed ==> c.h.log[LogFailed] == 1
  {
  }

  lemma PutBackBy(before: seq<Cell>, after: seq<Cell>, r: Row, now: Nanos, reason: string, why: Error)
    requires var delay := if why.OutboundRateLimited? then RATE_LIMIT_BACKOFF else BackoffFor(r.attempts);
             Landed(before, after, MarkedRetrying(r, now, reason, now + delay))
    requires why.OutboundRateLimited? || r.attempts < DEFAULT_MAX_ATTEMPTS
    ensures PutBack(before, after, now, why)
  {
    hide BackoffFor, Landed;
    var delay := if why.OutboundRateLimited? then RATE_LIMIT_BACKOFF else BackoffFor(r.attempts);
    var n := MarkedRetrying(r, now, reason, now + delay);
    assert n.attempts == r.attempts;
  }

  /** The delays in nanoseconds: one second after a denial, and 30, 60, 120 or 240 after a transient failure. */
  lemma PutBackMeans(before: seq<Cell>, after: seq<Cell>, now: Nanos, why: Error)
    requires PutBack(before, after, now, why)
    ensures exists i :: |before| <= i < |after| && after[i].row.Some? &&
              var r := after[i].row.value;
              && r.status == Retrying && r.updatedAt == now
              && r.nextRetryAt == Some(now + if why.OutboundRateLimited? then 1_000_000_000
                                             else if r.attempts <= 1 then 30_000_000_000
                                             else if r.attempts == 2 then 60_000_000_000
                                             else if r.attempts == 3 then 120_000_000_000 else 240_000_000_000)
  {
    hide BackoffFor;
    var n: Row :| Landed(before, after, n) && n.status == Retrying && n.updatedAt == now
                  && (why.OutboundRateLimited? || n.attempts < DEFAULT_MAX_ATTEMPTS)
                  && n.nextRetryAt == Some(now + if why.OutboundRateLimited? then RATE_LIMIT_BACKOFF else BackoffFor(n.attempts));
    var i :| |before| <= i < |after| && Carries(after[i].row, n);
    ColumnsCarried(after[i].row, n);
    BackoffTable();
    NoAttempts(0);
  }

  lemma StillPutBack(r0: map<Id, seq<Cell>>, r1: map<Id, seq<Cell>>, r2: map<Id, seq<Cell>>, id: Id, now: Nanos, why: Error)
    requires Extends(r0, r1) && Extends(r1, r2) && id in r0 && PutBack(r1[id], r2[id], now, why)
    ensures PutBack(r0[id], r2[id], now, why)
  {
    hide BackoffFor, Landed;
    var n: Row :| Landed(r1[id], r2[id], n) && n.status == Retrying && n.updatedAt == now
                  && (why.OutboundRateLimited? || n.attempts < DEFAULT_MAX_ATTEMPTS)
                  && n.nextRetryAt == Some(now + if why.OutboundRateLimited? then RATE_LIMIT_BACKOFF else BackoffFor(n.attempts));
    ExtendsItself(r2);
    StillThere(r0, r1, r2, r2, id, n);
  }

  lemma CarriesStatus(c: Cell, n: Row)
    requires Carries(c.row, n) && n.status in {Delivered, Failed}
    requires c.h.log[if n.status == Delivered then LogDelivered else LogFailed] == 1
    ensures Finished(c)
  {
  }

  lemma DeliveredWrite(n: Row, result: DeliveryResult, now: Nanos)
    requires result.success
    ensures WriteOf(Applying(n, result), now) == Some(Write(MarkedDelivered(n, now), Processing, LoggingDelivered))
    ensures EventOf(LoggingDelivered) == Some(LogDelivered) && AfterAppend(LoggingDelivered) == PublishingOutcome(Nil)
  {
  }

  lemma FailedWrite(n: Row, result: DeliveryResult, now: Nanos)
    requires !result.success && (!result.retryable || n.attempts >= DEFAULT_MAX_ATTEMPTS)
    ensures WriteOf(Applying(n, result), now) == Some(Write(MarkedFailed(n, now, result.reason), Processing, LoggingFailed))
    ensures EventOf(LoggingFailed) == Some(LogFailed) && AfterAppend(LoggingFailed) == PublishingOutcome(Nil)
  {
  }

  lemma RetryingWrite(n: Row, result: DeliveryResult, now: Nanos)
    requires !result.success && result.retryable && n.attempts < DEFAULT_MAX_ATTEMPTS
    ensures WriteOf(Applying(n, result), now)
            == Some(Write(MarkedRetrying(n, now, result.reason, now + BackoffFor(n.attempts)), Processing, LoggingRetrying(ProviderTransient)))
    ensures MarkedRetrying(n, now, result.reason, now + BackoffFor(n.attempts)).updatedAt == now
    ensures EventOf(LoggingRetrying(ProviderTransient)) == Some(LogRetrying)
    ensures AfterAppend(LoggingRetrying(ProviderTransient)) == PublishingOutcome(ProviderTransient)
  {
    hide BackoffFor;
  }

  lemma DeniedWrite(n: Row, now: Nanos)
    ensures WriteOf(Rescheduling(n), now)
            == Some(Write(MarkedRetrying(n, now, "outbound rate limit exceeded", now + RATE_LIMIT_BACKOFF), Processing,
                          LoggingRetrying(OutboundRateLimited)))
    ensures MarkedRetrying(n, now, "outbound rate limit exceeded", now + RATE_LIMIT_BACKOFF).updatedAt == now
    ensures EventOf(LoggingRetrying(OutboundRateLimited)) == Some(LogRetrying)
    ensures AfterAppend(LoggingRetrying(OutboundRateLimited)) == PublishingOutcome(OutboundRateLimited)
  {
  }

  lemma ProcessingEntry(n: Row)
    ensures EventOf(LoggingProcessing(n)) == Some(LogProcessing) && AfterAppend(LoggingProcessing(n)) == PublishingProcessing(n)
  {
  }

  method MarkDelivered(w: World, id: Id, me: ActorId, n: Notification, ghost result: DeliveryResult, now: Nanos) returns (err: Error)
    requires w.Valid() && w.At(id, me, Applying(n.Snapshot(), result)) && n.status == Processing && result.success
    modifies w, n
    ensures w.Valid() && Extends(old(w.runs), w.runs) && w.At(id, me, Stopped(err))
    ensures n.Snapshot() == MarkedDelivered(old(n.Snapshot()), now)
    ensures err in {Nil, PortFailure, ConcurrentUpdate} && (w.reliable ==> !err.PortFailure?)
    ensures err.Nil? ==>
              && w.cells[id].row.Some?
              && var r := w.cells[id].row.value;
                 r == Row(Delivered, old(n.attempts), "", old(n.nextRetryAt), r.scheduledAt, r.createdAt, now)
    ensures err.Nil? ==> Carries(w.cells[id].row, n.Snapshot()) && w.cells[id].h.log[LogDelivered] == 1
    ensures err.Nil? ==> w.cells[id].h.broadcasts > old(w.cells)[id].h.broadcasts
    ensures w.alone && w.reliable && old(w.cells)[id].row == Some(old(n.Snapshot())) ==> err.Nil?
  {
    hide IsRun, Apply, Extends, Elsewhere, BackoffFor, Landed, Logged, Carries, World.Valid, PutBack, Finished, World.At, WriteOf, EventOf, AfterAppend, SameCounted, Written;
    DeliveredWrite(n.Snapshot(), result, now);
    RunAt(w, id, me, Applying(n.Snapshot(), result));
    LastCell(w, id);
    ExtendsItself(w.runs);
    var legal := n.MarkDelivered(now);
    assert legal;
    err := w.UpdateStatus(id, me, n, Processing, Applying(old(n.Snapshot()), result), LoggingDelivered);
    if !err.Nil? {
      return;
    }
    RunAt(w, id, me, LoggingDelivered);
    SignalsKept(w, id, old(w.runs), old(w.cells)[id]);
    label updated:
    err := RecordEvent(w, id, me, LogDelivered, LoggingDelivered);
    ExtendsTransitively(old(w.runs), old@updated(w.runs), w.runs);
    StillThere(old(w.runs), old(w.runs), old@updated(w.runs), w.runs, id, n.Snapshot());
    if err.Nil? {
      RunAt(w, id, me, Stopped(err));
      LandedForGood(w, id, old(w.runs)[id], n.Snapshot());
      ColumnsCarried(w.cells[id].row, n.Snapshot());
      LoggedForGood(w, id, LogDelivered);
    }
  }

  method MarkFailed(w: World, id: Id, me: ActorId, n: Notification, result: DeliveryResult, now: Nanos) returns (err: Error)
    requires w.Valid() && w.At(id, me, Applying(n.Snapshot(), result)) && n.status == Processing
    requires !result.success && (!result.retryable || n.attempts >= DEFAULT_MAX_ATTEMPTS)
    modifies w, n
    ensures w.Valid() && Extends(old(w.runs), w.runs) && w.At(id, me, Stopped(err))
    ensures n.Snapshot() == MarkedFailed(old(n.Snapshot()), now, result.reason)
    ensures err in {Nil, PortFailure, ConcurrentUpdate} && (w.reliable ==> !err.PortFailure?)
    ensures err.Nil? ==>
              && w.cells[id].row.Some?
              && var r := w.cells[id].row.value;
                 r == Row(Failed, old(n.attempts), result.reason, old(n.nextRetryAt), r.scheduledAt, r.createdAt, now)
    ensures err.Nil? ==> Carries(w.cells[id].row, n.Snapshot()) && w.cells[id].h.log[LogFailed] == 1
    ensures err.Nil? ==> w.cells[id].h.broadcasts > old(w.cells)[id].h.broadcasts
    ensures w.alone && w.reliable && old(w.cells)[id].row == Some(old(n.Snapshot())) ==> err.Nil?
  {
    hide IsRun, Apply, Extends, Elsewhere, BackoffFor, Landed, Logged, Carries, World.Valid, PutBack, Finished, World.At, WriteOf, EventOf, AfterAppend, SameCounted, Written;
    FailedWrite(n.Snapshot(), result, now);
    RunAt(w, id, me, Applying(n.Snapshot(), result));
    LastCell(w, id);
    ExtendsItself(w.runs);
    var legal := n.MarkFailed(now, result.reason);
    assert legal;
    err := w.UpdateStatus(id, me, n, Processing, Applying(old(n.Snapshot()), result), LoggingFailed);
    if !err.Nil? {
      return;
    }
    RunAt(w, id, me, LoggingFailed);
    SignalsKept(w, id, old(w.runs), old(w.cells)[id]);
    label updated:
    err := RecordEvent(w, id, me, LogFailed, LoggingFailed);
    ExtendsTransitively(old(w.runs), old@updated(w.runs), w.runs);
    StillThere(old(w.runs), old(w.runs), old@updated(w.runs), w.runs, id, n.Snapshot());
    if err.Nil? {
      RunAt(w, id, me, Stopped(err));
      LandedForGood(w, id, old(w.runs)[id], n.Snapshot());
      ColumnsCarried(w.cells[id].row, n.Snapshot());
      LoggedForGood(w, id, LogFailed);
    }
  }

  /** Another worker may have claimed the row again by the time this returns; the write was there before. */
  method MarkRetrying(w: World, id: Id, me: ActorId, n: Notification, result: DeliveryResult, now: Nanos) returns (err: Error)
    requires w.Valid() && w.At(id, me, Applying(n.Snapshot(), result)) && n.status == Processing
    requires !result.success && result.retryable && n.attempts < DEFAULT_MAX_ATTEMPTS
    modifies w, n
    ensures w.Valid() && Extends(old(w.runs), w.runs) && w.At(id, me, Stopped(err))
    ensures n.Snapshot() == MarkedRetrying(old(n.Snapshot()), now, result.reason, now + BackoffFor(old(n.attempts)))
    ensures n.Snapshot() == Row(Retrying, old(n.attempts), result.reason,
                                Some(now + if old(n.attempts) <= 1 then 30_000_000_000
                                           else if old(n.attempts) == 2 then 60_000_000_000
                                           else if old(n.attempts) == 3 then 120_000_000_000 else 240_000_000_000),
                                n.scheduledAt, n.createdAt, now)
    ensures err in {ProviderTransient, PortFailure, ConcurrentUpdate} && (w.reliable ==> !err.PortFailure?)
    ensures err.ProviderTransient? ==> Landed(old(w.runs)[id], w.runs[id], n.Snapshot()) && Logged(w.runs[id], LogRetrying)
    ensures err.ProviderTransient? ==> PutBack(old(w.runs)[id], w.runs[id], now, err)
    ensures err.ProviderTransient? ==> w.cells[id].h.broadcasts > old(w.cells)[id].h.broadcasts
    ensures w.alone && w.reliable && old(w.cells)[id].row == Some(old(n.Snapshot())) ==> err.ProviderTransient?
  {
    hide IsRun, Apply, Extends, Elsewhere, BackoffFor, Landed, Logged, Carries, World.Valid, PutBack, Finished, World.At, WriteOf, EventOf, AfterAppend, SameCounted, Written,
         MarkedRetrying;
    BackoffTable();
    NoAttempts(0);
    RetryingWrite(n.Snapshot(), result, now);
    RunAt(w, id, me, Applying(n.Snapshot(), result));
    LastCell(w, id);
    ExtendsItself(w.runs);
    var legal := n.MarkRetrying(now, result.reason, now + BackoffFor(n.attempts));
    assert legal;
    err := w.UpdateStatus(id, me, n, Processing, Applying(old(n.Snapshot()), result), LoggingRetrying(ProviderTransient));
    if !err.Nil? {
      return;
    }
    RunAt(w, id, me, LoggingRetrying(ProviderTransient));
    SignalsKept(w, id, old(w.runs), old(w.cells)[id]);
    label updated:
    err := RecordEvent(w, id, me, LogRetrying, LoggingRetrying(ProviderTransient));
    ExtendsTransitively(old(w.runs), old@updated(w.runs), w.runs);
    StillThere(old(w.runs), old(w.runs), old@updated(w.runs), w.runs, id, n.Snapshot());
    if err.Nil? {
      err := ProviderTransient;
      PutBackBy(old(w.runs)[id], w.runs[id], old(n.Snapshot()), now, result.reason, err);
    }
  }

  method RescheduleForRateLimit(w: World, id: Id, me: ActorId, n: Notification, now: Nanos) returns (err: Error)
    requires w.Valid() && w.At(id, me, Rescheduling(n.Snapshot())) && n.status == Processing
    modifies w, n
    ensures w.Valid() && Extends(old(w.runs), w.runs) && w.At(id, me, Stopped(err))
    ensures n.Snapshot() == MarkedRetrying(old(n.Snapshot()), now, "outbound rate limit exceeded", now + RATE_LIMIT_BACKOFF)
    ensures n.Snapshot() == Row(Retrying, old(n.attempts), "outbound rate limit exceeded", Some(now + 1_000_000_000),
                                n.scheduledAt, n.createdAt, now)
    ensures err in {OutboundRateLimited, PortFailure, ConcurrentUpdate} && (w.reliable ==> !err.PortFailure?)
    ensures err.OutboundRateLimited? ==> Landed(old(w.runs)[id], w.runs[id], n.Snapshot()) && Logged(w.runs[id], LogRetrying)
    ensures err.OutboundRateLimited? ==> PutBack(old(w.runs)[id], w.runs[id], now, err)
    ensures err.OutboundRateLimited? ==> w.cells[id].h.broadcasts > old(w.cells)[id].h.broadcasts
    ensures w.alone && w.reliable && old(w.cells)[id].row == Some(old(n.Snapshot())) ==> err.OutboundRateLimited?
  {
    hide IsRun, Apply, Extends, Elsewhere, BackoffFor, Landed, Logged, Carries, World.Valid, PutBack, Finished, World.At, WriteOf, EventOf, AfterAppend, SameCounted, Written,
         MarkedRetrying;
    DeniedWrite(n.Snapshot(), now);
    RunAt(w, id, me, Rescheduling(n.Snapshot()));
    LastCell(w, id);
    ExtendsItself(w.runs);
    var legal := n.MarkRetrying(now, "outbound rate limit exceeded", now + RATE_LIMIT_BACKOFF);
    assert legal;
    err := w.UpdateStatus(id, me, n, Processing, Rescheduling(old(n.Snapshot())), LoggingRetrying(OutboundRateLimited));
    if !err.Nil? {
      return;
    }
    RunAt(w, id, me, LoggingRetrying(OutboundRateLimited));
    SignalsKept(w, id, old(w.runs), old(w.cells)[id]);
    label updated:
    err := RecordEvent(w, id, me, LogRetrying, LoggingRetrying(OutboundRateLimited));
    ExtendsTransitively(old(w.runs), old@updated(w.runs), w.runs);
    StillThere(old(w.runs), old(w.runs), old@updated(w.runs), w.runs, id, n.Snapshot());
    if err.Nil? {
      err := OutboundRateLimited;
      PutBackBy(old(w.runs)[id], w.runs[id], old(n.Snapshot()), now, "outbound rate limit exceeded", err);
    }
  }

  /** The lifecycle's answer to the provider's: what the entity becomes. */
  function Outcome(n: Row, result: DeliveryResult, now: Nanos): Row {
    if result.success then MarkedDelivered(n, now)
    else if !result.retryable || n.attempts >= DEFAULT_MAX_ATTEMPTS then MarkedFailed(n, now, result.reason)
    else MarkedRetrying(n, now, result.reason, now + BackoffFor(n.attempts))
  }

  method ApplyResult(w: World, id: Id, me: ActorId, n: Notification, result: DeliveryResult, now: Nanos) returns (err: Error)
    requires w.Valid() && w.At(id, me, Applying(n.Snapshot(), result)) && n.status == Processing
    modifies w, n
    ensures w.Valid() && Extends(old(w.runs), w.runs) && w.At(id, me, Stopped(err))
    ensures n.Snapshot() == Outcome(old(n.Snapshot()), result, now)
    ensures err in {Nil, ProviderTransient, PortFailure, ConcurrentUpdate} && (w.reliable ==> !err.PortFailure?)
    ensures err.Nil? ==>
              && w.cells[id].row.Some? && (result.success || !result.retryable || old(n.attempts) >= 5)
              && var r := w.cells[id].row.value;
                 r == Row(if result.success then Delivered else Failed, old(n.attempts), if result.success then "" else result.reason,
                          old(n.nextRetryAt), r.scheduledAt, r.createdAt, now)
    ensures err.ProviderTransient? ==>
              && !result.success && result.retryable && old(n.attempts) < 5
              && n.attempts == old(n.attempts) && n.lastError == result.reason
    ensures err.Nil? ==> n.status in {Delivered, Failed} && Carries(w.cells[id].row, n.Snapshot())
                         && Finished(w.cells[id])
    ensures err.ProviderTransient? ==> n.status == Retrying && Landed(old(w.runs)[id], w.runs[id], n.Snapshot())
                                       && Logged(w.runs[id], LogRetrying) && PutBack(old(w.runs)[id], w.runs[id], now, err)
    ensures err.Nil? || err.ProviderTransient? ==> w.cells[id].h.broadcasts > old(w.cells)[id].h.broadcasts
    ensures w.alone && w.reliable && old(w.cells)[id].row == Some(old(n.Snapshot())) ==> err in {Nil, ProviderTransient}
  {
    hide IsRun, Apply, Extends, Elsewhere, BackoffFor, Landed, Logged, Carries, World.Valid, PutBack, Finished, WriteOf, World.At;
    if result.success {
      err := MarkDelivered(w, id, me, n, result, now);
    } else if !result.retryable || n.attempts >= DEFAULT_MAX_ATTEMPTS {
      err := MarkFailed(w, id, me, n, result, now);
    } else {
      err := MarkRetrying(w, id, me, n, result, now);
    }
    if err.Nil? {
      RunAt(w, id, me, Stopped(err));
      CarriesStatus(w.cells[id], n.Snapshot());
    }
  }

  /** What Execute reports for the reason it stopped: losing the claim is not an error. */
  function Reported(why: Error): Error {
    if why.AlreadyClaimed? then Nil else why
  }

  /** What a worker does once it has recorded its claim: ask the limiter, send, and write the outcome. */
  method Attempt(w: World, id: Id, me: ActorId, n: Notification, now: Nanos)
    returns (err: Error, ghost answer: Option<DeliveryResult>)
    requires w.Valid() && w.At(id, me, AskingLimiter(n.Snapshot())) && n.status == Processing
    modifies w, n
    ensures w.Valid() && Extends(old(w.runs), w.runs) && w.At(id, me, Stopped(err))
    ensures err in {Nil, ProviderTransient, OutboundRateLimited, ConcurrentUpdate, PortFailure}
    ensures err.Nil? ==>
              && answer.Some? && w.cells[id].row.Some?
              && (answer.value.success || !answer.value.retryable || old(n.attempts) >= 5)
              && var r := w.cells[id].row.value;
                 r == Row(if answer.value.success then Delivered else Failed, old(n.attempts),
                          if answer.value.success then "" else answer.value.reason,
                          old(n.nextRetryAt), r.scheduledAt, r.createdAt, now)
    ensures err.ProviderTransient? ==>
              answer.Some? && !answer.value.success && answer.value.retryable && old(n.attempts) < 5
    ensures err.OutboundRateLimited? ==> answer.None?
    ensures err.Nil? ==> Finished(w.cells[id])
    ensures err.ProviderTransient? || err.OutboundRateLimited? ==>
              PutBack(old(w.runs)[id], w.runs[id], now, err) && Logged(w.runs[id], LogRetrying)
    ensures err in {Nil, ProviderTransient, OutboundRateLimited} ==> w.cells[id].h.broadcasts > old(w.cells)[id].h.broadcasts
    ensures w.alone && w.reliable && old(w.cells)[id].row == Some(old(n.Snapshot())) ==>
              err in {Nil, ProviderTransient, OutboundRateLimited}
  {
    hide IsRun, Apply, Extends, Elsewhere, BackoffFor, World.Valid, Landed, Logged, Carries, PutBack, Finished, Outcome, World.At;
    RunAt(w, id, me, AskingLimiter(n.Snapshot()));
    LastCell(w, id);
    ExtendsItself(w.runs);
    answer := None;
    var allowed;
    allowed, err := w.Allow(id, me, n.Snapshot());
    if !err.Nil? {
      return;
    }
    RunAt(w, id, me, if allowed then ReadyToSend(n.Snapshot()) else Rescheduling(n.Snapshot()));
    SignalsKept(w, id, old(w.runs), old(w.cells)[id]);
    label limited:
    if !allowed {
      err := RescheduleForRateLimit(w, id, me, n, now);
      if err.OutboundRateLimited? {
        StillPutBack(old(w.runs), old@limited(w.runs), w.runs, id, now, err);
      }
      ExtendsTransitively(old(w.runs), old@limited(w.runs), w.runs);
      return;
    }
    var result := w.Send(id, me, n.Snapshot());
    answer := Some(result);
    ExtendsTransitively(old(w.runs), old@limited(w.runs), w.runs);
    RunAt(w, id, me, Applying(n.Snapshot(), result));
    SignalsKept(w, id, old(w.runs), old(w.cells)[id]);
    label sent:
    err := ApplyResult(w, id, me, n, result, now);
    if err.ProviderTransient? {
      StillPutBack(old(w.runs), old@sent(w.runs), w.runs, id, now, err);
    }
    ExtendsTransitively(old(w.runs), old@sent(w.runs), w.runs);
  }

  /**
   * One delivery of a task to a worker. `start` and `now` are the clock readings before the claim and
   * before the write that ends it. Whatever others do: success means that the row is delivered or
   * failed and its log says so, and either sentinel that the row was put back with the matching delay.
   */
  method Process(w: World, id: Id, me: ActorId, start: Nanos, now: Nanos)
    returns (err: Error, ghost why: Error, ghost answer: Option<DeliveryResult>)
    requires w.Valid() && w.At(id, me, Claiming)
    modifies w
    ensures w.Valid() && Extends(old(w.runs), w.runs)
    ensures w.At(id, me, Stopped(why)) && err == if why.AlreadyClaimed? then Nil else why
    ensures why in {Nil, ProviderTransient, OutboundRateLimited, AlreadyClaimed, NotFound, ConcurrentUpdate, PortFailure}
    ensures why.Nil? ==>
              && answer.Some? && w.cells[id].row.Some?
              && var r := w.cells[id].row.value;
                 && r.status == (if answer.value.success then Delivered else Failed) && r.updatedAt == now
                 && r.lastError == (if answer.value.success then "" else answer.value.reason)
                 && (answer.value.success || !answer.value.retryable || r.attempts >= 5)
                 && w.cells[id].h.log[if answer.value.success then LogDelivered else LogFailed] == 1
    ensures why.ProviderTransient? ==>
              && answer.Some? && !answer.value.success && answer.value.retryable
              && exists i :: |old(w.runs)[id]| <= i < |w.runs[id]| && w.runs[id][i].row.Some? &&
                   var r := w.runs[id][i].row.value;
                   && r.status == Retrying && r.updatedAt == now
                   && r.nextRetryAt == Some(now + if r.attempts <= 1 then 30_000_000_000
                                                  else if r.attempts == 2 then 60_000_000_000
                                                  else if r.attempts == 3 then 120_000_000_000 else 240_000_000_000)
    ensures why.OutboundRateLimited? ==>
              && answer.None?
              && exists i :: |old(w.runs)[id]| <= i < |w.runs[id]| && w.runs[id][i].row.Some? &&
                   var r := w.runs[id][i].row.value;
                   r.status == Retrying && r.updatedAt == now && r.nextRetryAt == Some(now + 1_000_000_000)
    ensures why.ProviderTransient? || why.OutboundRateLimited? ==> Logged(w.runs[id], LogRetrying)
    ensures why in {Nil, ProviderTransient, OutboundRateLimited} ==> w.cells[id].h.broadcasts >= old(w.cells)[id].h.broadcasts + 2
    ensures why in {Nil, ProviderTransient, OutboundRateLimited} ==> Logged(w.runs[id], LogProcessing)
    ensures w.alone && w.reliable
            && (var row := old(w.cells)[id].row;
                row.Some? && row.value.status in {Queued, Retrying} && row.value.attempts < 0x7fff_ffff) ==>
              why in {Nil, ProviderTransient, OutboundRateLimited}
  {
    hide IsRun, Apply, Extends, Elsewhere, BackoffFor, World.Valid, Landed, Logged, Carries, PutBack, Finished, Outcome,
         EventOf, AfterAppend, World.At;
    RunAt(w, id, me, Claiming);
    LastCell(w, id);
    answer := None;
    var claimed;
    claimed, err := w.ClaimForProcessing(id, me, start);
    why := err;
    if claimed == null {
      err := Reported(err);
      return;
    }
    ProcessingEntry(claimed.Snapshot());
    RunAt(w, id, me, LoggingProcessing(claimed.Snapshot()));
    SignalsKept(w, id, old(w.runs), old(w.cells)[id]);
    label claimed:
    err := RecordEvent(w, id, me, LogProcessing, LoggingProcessing(claimed.Snapshot()));
    ExtendsTransitively(old(w.runs), old@claimed(w.runs), w.runs);
    why := err;
    if !err.Nil? {
      return;
    }
    RunAt(w, id, me, AskingLimiter(claimed.Snapshot()));
    label recorded:
    err, answer := Attempt(w, id, me, claimed, now);
    RunAt(w, id, me, Stopped(err));
    why := err;
    if err.ProviderTransient? || err.OutboundRateLimited? {
      StillPutBack(old(w.runs), old@recorded(w.runs), w.runs, id, now, err);
      PutBackMeans(old(w.runs)[id], w.runs[id], now, err);
    }
    StillLogged(old@recorded(w.runs), w.runs, id, LogProcessing);
    if err.Nil? {
      FinishedMeans(w.cells[id]);
    }
    ExtendsTransitively(old(w.runs), old@recorded(w.runs), w.runs);
  }

  // ---------------------------------------------------------------------------------------------
  // CancelNotification
  // ---------------------------------------------------------------------------------------------

  lemma CancelWrite(r: Row, now: Nanos)
    ensures var pc := AfterGet(r, now);
            if r.status in {Pending, Queued, Retrying}
            then pc.Cancelling? && WriteOf(pc, now) == Some(Write(Moved(r, Cancelled, now), r.status, LoggingCancelled))
            else pc == Stopped(InvalidTransition)
  {
  }

  lemma CancelledEntry()
    ensures EventOf(LoggingCancelled) == Some(LogCancelled) && AfterAppend(LoggingCancelled) == DroppingTask
  {
  }

  /** The guarded write of a cancelled entity, its log entry, and the hint to the queue. */
  method CommitCancel(w: World, id: Id, me: ActorId, n: Notification, source: Status, ghost pc: Pc) returns (err: Error)
    requires w.Valid() && w.At(id, me, pc) && WriteOf(pc, n.updatedAt) == Some(Write(n.Snapshot(), source, LoggingCancelled))
    requires n.status == Cancelled
    modifies w
    ensures w.Valid() && Extends(old(w.runs), w.runs) && w.At(id, me, Stopped(err))
    ensures err in {Nil, PortFailure, ConcurrentUpdate}
    ensures err.Nil? ==>
              && w.cells[id].row.Some?
              && var r := w.cells[id].row.value;
                 r == Row(Cancelled, n.attempts, n.lastError, n.nextRetryAt, r.scheduledAt, r.createdAt, n.updatedAt)
    ensures w.alone && err.Nil? ==>
              && old(w.cells)[id].row.Some? && w.cells[id].row.value.scheduledAt == old(w.cells)[id].row.value.scheduledAt
              && w.cells[id].row.value.createdAt == old(w.cells)[id].row.value.createdAt
    ensures err.Nil? ==> Carries(w.cells[id].row, n.Snapshot()) && w.cells[id].h.log[LogCancelled] == 1
    ensures err.Nil? ==> w.cells[id].h.hints > old(w.cells)[id].h.hints
    ensures w.alone && w.reliable && GuardHolds(old(w.cells)[id].row, source) ==> err.Nil?
  {
    hide IsRun, Apply, Extends, Elsewhere, BackoffFor, Landed, Logged, Carries, World.Valid, World.At, SameCounted, Written, WriteOf, EventOf, AfterAppend;
    CancelledEntry();
    RunAt(w, id, me, pc);
    LastCell(w, id);
    ExtendsItself(w.runs);
    err := w.UpdateStatus(id, me, n, source, pc, LoggingCancelled);
    if !err.Nil? {
      return;
    }
    RunAt(w, id, me, LoggingCancelled);
    label updated:
    err := w.AppendLog(id, me, LogCancelled, LoggingCancelled);
    ExtendsTransitively(old(w.runs), old@updated(w.runs), w.runs);
    if !err.Nil? {
      return;
    }
    RunAt(w, id, me, DroppingTask);
    SignalsKept(w, id, old(w.runs), old(w.cells)[id]);
    label appended:
    err := w.CancelTask(id, me);
    RunAt(w, id, me, Stopped(err));
    ExtendsTransitively(old(w.runs), old@appended(w.runs), w.runs);
    StillLogged(old@appended(w.runs), w.runs, id, LogCancelled);
    ExtendsTransitively(old@updated(w.runs), old@appended(w.runs), w.runs);
    StillThere(old(w.runs), old(w.runs), old@updated(w.runs), w.runs, id, n.Snapshot());
    LandedForGood(w, id, old(w.runs)[id], n.Snapshot());
    ColumnsCarried(w.cells[id].row, n.Snapshot());
    LoggedForGood(w, id, LogCancelled);
  }

  /** Success means that the row is cancelled and will stay so, whatever others do. */
  method Cancel(w: World, id: Id, me: ActorId, now: Nanos) returns (n: Notification?, err: Error)
    requires w.Valid() && w.At(id, me, Reading)
    modifies w
    ensures w.Valid() && Extends(old(w.runs), w.runs) && w.At(id, me, Stopped(err))
    ensures err in {Nil, NotFound, InvalidTransition, PortFailure, ConcurrentUpdate} && (n != null <==> err.Nil?)
    ensures n != null ==> fresh(n) && n.status == Cancelled && n.updatedAt == now
    ensures n != null ==>
              w.cells[id].row.Some? && w.cells[id].row.value.status == Cancelled && w.cells[id].row.value.updatedAt == now
    ensures w.alone && n != null ==>
              && old(w.cells)[id].row.Some?
              && var r := old(w.cells)[id].row.value;
                 w.cells[id].row == Some(Row(Cancelled, r.attempts, r.lastError, r.nextRetryAt, r.scheduledAt, r.createdAt, now))
    ensures n != null ==> Carries(w.cells[id].row, n.Snapshot()) && w.cells[id].h.log[LogCancelled] == 1
    ensures n != null ==> w.cells[id].h.hints > old(w.cells)[id].h.hints
    ensures w.alone && w.reliable && old(w.cells)[id].row.Some? ==>
              err == if old(w.cells)[id].row.value.status in {Pending, Queued, Retrying} then Nil else InvalidTransition
  {
    hide IsRun, Apply, Extends, Elsewhere, WriteOf, AfterGet, Carries, World.Valid;
    LastCell(w, id);
    n, err := w.Fetch(id, me, now);
    if n == null {
      return;
    }
    CancelWrite(n.Snapshot(), now);
    ghost var pc := AfterGet(n.Snapshot(), now);
    var source := n.status;
    var legal := n.Cancel(now);
    if !legal {
      return null, InvalidTransition;
    }
    SignalsKept(w, id, old(w.runs), old(w.cells)[id]);
    label fetched:
    err := CommitCancel(w, id, me, n, source, pc);
    ExtendsTransitively(old(w.runs), old@fetched(w.runs), w.runs);
    if !err.Nil? {
      n := null;
    }
  }

  // ---------------------------------------------------------------------------------------------
  // CreateNotification
  // ---------------------------------------------------------------------------------------------

  method MarkQueued(w: World, id: Id, me: ActorId, n: Notification, now: Nanos) returns (err: Error)
    requires w.Valid() && w.At(id, me, MarkingQueued(n.Snapshot())) && n.status == Pending && now == n.createdAt
    modifies w, n
    ensures w.Valid() && Extends(old(w.runs), w.runs) && w.At(id, me, Stopped(err))
    ensures Elsewhere(id, me, w.alone, old(w.cells), w.cells)
    ensures n.Snapshot() == Moved(old(n.Snapshot()), Queued, now)
    ensures n.Snapshot() == Row(Queued, old(n.attempts), old(n.lastError), old(n.nextRetryAt), n.scheduledAt, n.createdAt, now)
    ensures err in {Nil, PortFailure, ConcurrentUpdate}
    ensures err.Nil? ==> Landed(old(w.runs)[id], w.runs[id], n.Snapshot()) && Logged(w.runs[id], LogQueued)
    ensures w.alone && old(w.cells)[id].row == Some(old(n.Snapshot())) ==>
              && w.cells[id].row in {Some(old(n.Snapshot())), Some(n.Snapshot())}
              && (err.Nil? ==> w.cells[id].row == Some(n.Snapshot()))
              && (w.reliable ==> err.Nil?)
  {
    hide IsRun, Apply, Extends, Elsewhere, BackoffFor, Landed, Logged, World.Valid;
    HasRun(w, id);
    ExtendsItself(w.runs);
    var legal := n.MarkQueued(now);
    assert legal;
    err := w.UpdateStatus(id, me, n, Pending, MarkingQueued(old(n.Snapshot())), LoggingQueued);
    if !err.Nil? {
      return;
    }
    label updated:
    err := w.AppendLog(id, me, LogQueued, LoggingQueued);
    StillThere(old(w.runs), old(w.runs), old@updated(w.runs), w.runs, id, n.Snapshot());
    ExtendsTransitively(old(w.runs), old@updated(w.runs), w.runs);
    ElsewhereTransitively(id, me, w.alone, old(w.cells), old@updated(w.cells), w.cells);
  }

  lemma CreatedEntry(n: Row)
    ensures EventOf(LoggingCreated(n)) == Some(LogCreated) && AfterAppend(LoggingCreated(n)) == Enqueuing(n)
  {
  }

  /**
   * What follows the insert: the created entry, the enqueueing, and the move to queued. Success means
   * that the row was queued and both events are logged, whatever others do. Without interference, a
   * failure leaves the row pending, or queued when it came after the write.
   */
  method Announce(w: World, id: Id, me: ActorId, n: Notification, now: Nanos) returns (err: Error)
    requires w.Valid() && w.At(id, me, LoggingCreated(n.Snapshot())) && n.status == Pending && now == n.createdAt
    modifies w, n
    ensures w.Valid() && Extends(old(w.runs), w.runs) && w.At(id, me, Stopped(err))
    ensures Elsewhere(id, me, w.alone, old(w.cells), w.cells)
    ensures err in {Nil, PortFailure, ConcurrentUpdate}
    ensures err.Nil? ==> n.Snapshot() == Moved(old(n.Snapshot()), Queued, now)
    ensures err.Nil? ==>
              n.Snapshot() == Row(Queued, old(n.attempts), old(n.lastError), old(n.nextRetryAt), n.scheduledAt, n.createdAt, now)
    ensures err.Nil? ==> Landed(old(w.runs)[id], w.runs[id], n.Snapshot())
                         && Logged(w.runs[id], LogCreated) && Logged(w.runs[id], LogQueued)
    ensures err.Nil? ==> w.cells[id].h.tasks > old(w.cells)[id].h.tasks
    ensures w.alone && old(w.cells)[id].row == Some(old(n.Snapshot())) ==>
              && w.cells[id].row in {Some(old(n.Snapshot())), Some(Moved(old(n.Snapshot()), Queued, now))}
              && (err.Nil? ==> w.cells[id].row == Some(Moved(old(n.Snapshot()), Queued, now)))
              && (w.reliable ==> err.Nil?)
  {
    hide IsRun, Apply, Extends, Elsewhere, BackoffFor, Landed, Logged, World.Valid, Carries, World.At, SameCounted, Written, EventOf, AfterAppend;
    CreatedEntry(n.Snapshot());
    RunAt(w, id, me, LoggingCreated(n.Snapshot()));
    LastCell(w, id);
    err := w.AppendLog(id, me, LogCreated, LoggingCreated(n.Snapshot()));
    if !err.Nil? {
      return;
    }
    RunAt(w, id, me, Enqueuing(n.Snapshot()));
    SignalsKept(w, id, old(w.runs), old(w.cells)[id]);
    label appended:
    err := w.EnqueueTask(id, me, Enqueuing(n.Snapshot()));
    StillLogged(old@appended(w.runs), w.runs, id, LogCreated);
    ExtendsTransitively(old(w.runs), old@appended(w.runs), w.runs);
    ElsewhereTransitively(id, me, w.alone, old(w.cells), old@appended(w.cells), w.cells);
    if !err.Nil? {
      return;
    }
    RunAt(w, id, me, MarkingQueued(n.Snapshot()));
    LastCell(w, id);
    label enqueued:
    err := MarkQueued(w, id, me, n, now);
    RunAt(w, id, me, Stopped(err));
    SignalsKept(w, id, old@enqueued(w.runs), old@enqueued(w.cells)[id]);
    StillLogged(old@enqueued(w.runs), w.runs, id, LogCreated);
    ExtendsItself(w.runs);
    StillThere(old(w.runs), old@enqueued(w.runs), w.runs, w.runs, id, n.Snapshot());
    ExtendsTransitively(old(w.runs), old@enqueued(w.runs), w.runs);
    ElsewhereTransitively(id, me, w.alone, old(w.cells), old@enqueued(w.cells), w.cells);
  }

  /**
   * Creates a notification whose input has passed validation, at time `now`. Success means that its
   * row was stored as queued and both events are logged; a worker may have claimed it since.
   */
  method Create(w: World, id: Id, me: ActorId, scheduledAt: Option<Nanos>, now: Nanos) returns (n: Notification?, err: Error)
    requires w.Valid() && w.At(id, me, Inserting(NewRow(scheduledAt, now)))
    modifies w
    ensures w.Valid() && Extends(old(w.runs), w.runs) && w.At(id, me, Stopped(err))
    ensures err in {Nil, PortFailure, ConcurrentUpdate} && (n != null <==> err.Nil?)
    ensures n != null ==> fresh(n) && n.Snapshot() == Moved(NewRow(scheduledAt, now), Queued, now)
    ensures n != null ==> n.Snapshot() == Row(Queued, 0, "", None, scheduledAt, now, now)
    ensures n != null ==> Landed(old(w.runs)[id], w.runs[id], n.Snapshot())
                          && w.cells[id].h.log[LogCreated] == 1 && w.cells[id].h.log[LogQueued] == 1
    ensures w.alone && old(w.cells)[id].row.None? ==>
              w.cells[id].row in {None, Some(Row(Pending, 0, "", None, scheduledAt, now, now)), Some(Row(Queued, 0, "", None, scheduledAt, now, now))}
    ensures n != null ==> w.cells[id].h.tasks > old(w.cells)[id].h.tasks
    ensures w.alone && n != null ==> w.cells[id].row == Some(Row(Queued, 0, "", None, scheduledAt, now, now))
    ensures w.alone && old(w.cells)[id].row.None? ==>
              && w.cells[id].row in {None, Some(NewRow(scheduledAt, now)), Some(Moved(NewRow(scheduledAt, now), Queued, now))}
              && (w.reliable ==> n != null)
  {
    hide IsRun, Apply, Extends, Elsewhere, BackoffFor, Landed, Logged, World.Valid;
    HasRun(w, id);
    LastCell(w, id);
    n := new Notification(NewRow(scheduledAt, now));
    err := w.Create(id, me, n);
    if !err.Nil? {
      n := null;
      return;
    }
    SignalsKept(w, id, old(w.runs), old(w.cells)[id]);
    label inserted:
    err := Announce(w, id, me, n, now);
    if err.Nil? {
      ExtendsItself(w.runs);
      StillThere(old(w.runs), old@inserted(w.runs), w.runs, w.runs, id, n.Snapshot());
      LoggedForGood(w, id, LogCreated);
      LoggedForGood(w, id, LogQueued);
    }
    ExtendsTransitively(old(w.runs), old@inserted(w.runs), w.runs);
    if !err.Nil? {
      n := null;
    }
  }
}
