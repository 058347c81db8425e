/**
 * What the protocol guarantees over every run, whatever fails, crashes, overlaps or is redelivered:
 * ownership of claims, at most one delivery, bounded sends, final cancellation, a legal lifecycle
 * and an audit trail that agrees with the row.
 */
module Guarantees {
  import opened Domain
  import opened RetryPolicy
  import opened Sweeps
  import opened Protocol
  import opened Invariant
  import opened Preservation

  // ---------------------------------------------------------------------------------------------
  // Ownership
  // ---------------------------------------------------------------------------------------------

  /** The worker's copy of the row it claimed. */
  function ClaimOf(pc: Pc): Row
    requires InWindow(pc)
  {
    pc.n
  }

  /** The window lasts from the acknowledged claim to the write that ends it. */
  lemma WindowIs(pc: Pc)
    ensures InWindow(pc) <==>
            || pc.LoggingProcessing? || pc.PublishingProcessing? || pc.AskingLimiter? || pc.Rescheduling?
            || pc.ReadyToSend? || pc.Sending? || pc.Applying?
  {
  }

  lemma KindPositive(t: Tally, actors: map<ActorId, Pc>, a: ActorId)
    requires Counts(t, actors) && a in actors && KindOf(actors[a]) != Uncounted
    ensures t.At(KindOf(actors[a])) >= 1
  {
    CountPositive(actors, a);
  }

  lemma WindowPositive(t: Tally, actors: map<ActorId, Pc>, a: ActorId)
    requires Counts(t, actors) && a in actors && InWindow(actors[a])
    ensures t.Window() >= 1
  {
    KindPositive(t, actors, a);
  }

  lemma WindowShared(t: Tally, actors: map<ActorId, Pc>, a: ActorId, b: ActorId)
    requires Counts(t, actors) && a in actors && b in actors && a != b
    requires InWindow(actors[a]) && InWindow(actors[b])
    ensures t.Window() >= 2
  {
    KindPositive(t, actors, a);
    KindPositive(t, actors, b);
    if KindOf(actors[a]) == KindOf(actors[b]) {
      CountTwo(actors, a, b);
    }
  }

  /**
   * In every reachable cell at most one worker stands between its claim and the write that ends it;
   * it holds the number of the last claim, and the row is still processing or was failed by a sweep.
   */
  lemma SoleOwner(run: seq<Cell>, i: nat, a: ActorId)
    requires IsRun(run) && i < |run| && a in run[i].actors && InWindow(run[i].actors[a])
    ensures run[i].row.Some? && run[i].row.value.status in {Processing, Failed}
    ensures ClaimOf(run[i].actors[a]).attempts == run[i].h.claims
    ensures forall b | b in run[i].actors && InWindow(run[i].actors[b]) :: b == a
  {
    var c := run[i];
    InvReachable(run, i);
    var t := TallyOf(c);
    WindowPositive(t, c.actors, a);
    assert Holds(c.h, c.actors[a]);
    forall b | b in c.actors && InWindow(c.actors[b])
      ensures b == a
    {
      if b != a {
        WindowShared(t, c.actors, a, b);
      }
    }
  }

  lemma NumbersAttempts(r: Row, h: History, t: Tally)
    requires Numbers(Some(r), h, t)
    ensures r.attempts <= h.claims
    ensures !IsTerminal(r.status) ==> r.attempts == h.claims
  {
  }

  /** The row's attempts are the claims made so far, exactly while the notification is alive and at most afterwards. */
  lemma AttemptsCountClaims(run: seq<Cell>, i: nat)
    requires IsRun(run) && i < |run| && run[i].row.Some?
    ensures run[i].row.value.attempts <= run[i].h.claims
    ensures !IsTerminal(run[i].row.value.status) ==> run[i].row.value.attempts == run[i].h.claims
  {
    InvReachable(run, i);
    var t := TallyOf(run[i]);
    NumbersAttempts(run[i].row.value, run[i].h, t);
  }

  /**
   * Although the guard compares nothing but the status, the write of a worker can only land on the
   * claim that this worker made.
   */
  lemma WriteLandsOnOwnClaim(run: seq<Cell>, i: nat, a: ActorId, now: Nanos, ack: Ack)
    requires IsRun(run) && i < |run| && a in run[i].actors && (run[i].actors[a].Applying? || run[i].actors[a].Rescheduling?)
    requires Apply(run[i], Update(a, now, ack)).Some? && Apply(run[i], Update(a, now, ack)).value.row != run[i].row
    ensures run[i].row.value.status == Processing
    ensures run[i].row.value.attempts == ClaimOf(run[i].actors[a]).attempts == run[i].h.claims
  {
    SoleOwner(run, i, a);
    AttemptsCountClaims(run, i);
  }

  // ---------------------------------------------------------------------------------------------
  // What the history counts
  // ---------------------------------------------------------------------------------------------

  /** Each counter counts exactly the steps it is named after. */
  lemma HistoryCounts(c: Cell, e: Event, c': Cell)
    requires Apply(c, e) == Some(c')
    ensures c'.h.sends == c.h.sends + if e.SendStart? then 1 else 0
    ensures c'.h.successes == c.h.successes + if e.SendReturn? && e.result.success then 1 else 0
    ensures c'.h.denials == c.h.denials + if e.Limit? && e.verdict.Denied? then 1 else 0
    ensures c'.h.claims == c.h.claims + if e.Claim? && c'.row != c.row then 1 else 0
    ensures e.Claim? && c'.row != c.row ==>
              && c.row.Some? && c'.row.Some? && c'.row.value.status == Processing && c'.row.value.attempts == c.row.value.attempts + 1
              && c'.h.moves == c.h.moves[(c.row.value.status, Processing) := c.h.moves[(c.row.value.status, Processing)] + 1]
    ensures !e.Claim? && !e.Update? ==> c'.h.moves == c.h.moves
    ensures c'.h.tasks == c.h.tasks + if e.Enqueue? && e.ok then 1 else 0
    ensures c'.h.broadcasts == c.h.broadcasts + if e.Publish? && e.ok then 1 else 0
    ensures c'.h.hints == c.h.hints + if e.DropTask? && e.ok then 1 else 0
    ensures !e.Append? ==> c'.h.log == c.h.log
    ensures !e.Claim? && !e.Update? && !e.Insert? ==> c'.row == c.row
  {
    hide WriteOf, EventOf, AfterAppend, AfterGet, AfterSelect, Written, Eligible;
  }

  /** A claim that is not refused commits exactly when the row can be claimed and its attempts can grow. */
  lemma ClaimCommits(c: Cell, a: ActorId, now: Nanos, ack: Ack, c': Cell)
    requires Apply(c, Claim(a, now, ack)) == Some(c')
    ensures if ack.Refused? || c.row.None? || c.row.value.status !in {Queued, Retrying} || c.row.value.attempts >= 0x7fff_ffff
            then c'.row == c.row && c'.h == c.h && c'.actors[a].Stopped?
            else
              var r := c.row.value;
              && c'.row == Some(Row(Processing, r.attempts + 1, r.lastError, r.nextRetryAt, r.scheduledAt, r.createdAt, now))
              && c'.h.claims == c.h.claims + 1
  {
  }

  /** An insert that is not refused stores its entity exactly when there is no row yet. */
  lemma InsertCommits(c: Cell, a: ActorId, ack: Ack, c': Cell)
    requires Apply(c, Insert(a, ack)) == Some(c')
    ensures a in c.actors && c.actors[a].Inserting?
    ensures c'.h == c.h && c'.row == if ack.Refused? || c.row.Some? then c.row else Some(c.actors[a].n)
  {
  }

  /** Any actor that has stopped, or was never there, may start a use case; any that is there may stop at any time. */
  lemma StartsAndCrashes(c: Cell, a: ActorId, n: Row)
    ensures a !in c.actors || c.actors[a].Stopped? ==>
              && Apply(c, Spawn(a, Claiming)).Some? && Apply(c, Spawn(a, Reading)).Some? && Apply(c, Spawn(a, Scanning)).Some?
              && (n.status == Pending && n.attempts == 0 && n.lastError == "" && n.nextRetryAt.None? && n.updatedAt == n.createdAt ==>
                    Apply(c, Spawn(a, Inserting(n))).Some?)
    ensures a in c.actors ==> Apply(c, Crash(a)).Some?
  {
  }

  /** An append that is not refused adds exactly the entry of its program counter. */
  lemma AppendAdds(c: Cell, a: ActorId, ack: Ack, c': Cell)
    requires Apply(c, Append(a, ack)) == Some(c')
    ensures var pc := c.actors[a];
            var event := if pc.LoggingCreated? then LogCreated
                         else if pc.LoggingQueued? || pc.LoggingRequeued? then LogQueued
                         else if pc.LoggingProcessing? then LogProcessing
                         else if pc.LoggingDelivered? then LogDelivered
                         else if pc.LoggingRetrying? then LogRetrying
                         else if pc.LoggingCancelled? then LogCancelled else LogFailed;
            c'.h.log == if ack.Refused? then c.h.log else c.h.log[event := c.h.log[event] + 1]
  {
  }

  /** A status write that is not refused and finds the status it expects commits; any other changes nothing. */
  lemma WriteCommits(c: Cell, a: ActorId, now: Nanos, ack: Ack, c': Cell)
    requires Apply(c, Update(a, now, ack)) == Some(c')
    ensures WriteOf(c.actors[a], now).Some?
    ensures var pc, w := c.actors[a], WriteOf(c.actors[a], now).value;
            if ack.Refused? || c.row.None? || c.row.value.status != w.source then c'.row == c.row && c'.h == c.h
            else
              var r, n := c.row.value, w.n;
              && c'.row == Some(Row(n.status, n.attempts, n.lastError, n.nextRetryAt, r.scheduledAt, r.createdAt, n.updatedAt))
              && c'.h.moves == c.h.moves[(r.status, n.status) := c.h.moves[(r.status, n.status)] + 1]
              && c'.h.timeouts == c.h.timeouts + (if pc.TimingOut? then 1 else 0)
              && c'.h.requeues == c.h.requeues + if pc.Requeuing? then 1 else 0
  {
    hide WriteOf;
  }

  // ---------------------------------------------------------------------------------------------
  // Sends
  // ---------------------------------------------------------------------------------------------

  lemma NumbersSends(row: Option<Row>, h: History, t: Tally)
    requires Numbers(row, h, t) && t.NonNegative()
    ensures h.successes <= 1 && h.successes <= h.sends <= 5
    ensures h.sends + h.denials <= h.claims <= h.denials + 5
    ensures h.claims <= h.sends + h.denials + 1
    ensures h.successes == 1 ==> t.At(PreSend) == t.At(Fresh) == t.At(InFlight) == 0
    ensures h.successes == 1 ==> row.Some? && row.value.status in {Processing, Delivered, Failed}
    ensures row.Some? && row.value.status == Delivered ==> h.successes == 1
    ensures h.successes == 1 ==> (row.value.status == Failed <==> h.timeouts == 1) && h.timeouts <= 1
  {
  }

  /**
   * Every run sends a notification at most five times and succeeds at most once, and claims it at
   * most five times more often than it is denied. Every claim but the last ended in a send or a denial.
   */
  lemma BoundedSends(run: seq<Cell>, i: nat)
    requires IsRun(run) && i < |run|
    ensures run[i].h.sends <= 5
    ensures run[i].h.successes <= 1
    ensures run[i].h.sends + run[i].h.denials <= run[i].h.claims <= run[i].h.sends + run[i].h.denials + 1
    ensures run[i].h.claims <= 5 + run[i].h.denials
  {
    InvReachable(run, i);
    var t := TallyOf(run[i]);
    NumbersSends(run[i].row, run[i].h, t);
  }

  /** A delivered row was really accepted by the provider. */
  lemma DeliveredMeansSent(run: seq<Cell>, i: nat)
    requires IsRun(run) && i < |run| && run[i].row.Some? && run[i].row.value.status == Delivered
    ensures run[i].h.successes == 1 && run[i].h.sends >= 1
  {
    InvReachable(run, i);
    var t := TallyOf(run[i]);
    NumbersSends(run[i].row, run[i].h, t);
  }

  /**
   * What the provider accepted is recorded as delivered, or still to be recorded, unless the stuck
   * sweep failed the row: nobody else ever records an accepted message as failed.
   */
  lemma AcceptedIsRecordedUnlessTimedOut(run: seq<Cell>, i: nat)
    requires IsRun(run) && i < |run| && run[i].h.successes >= 1
    ensures run[i].row.Some? && run[i].row.value.status in {Processing, Delivered, Failed}
    ensures run[i].row.value.status == Failed <==> run[i].h.timeouts == 1
  {
    InvReachable(run, i);
    var t := TallyOf(run[i]);
    NumbersSends(run[i].row, run[i].h, t);
  }

  lemma NobodyReadyToSend(c: Cell, a: ActorId, t: Tally)
    requires Counts(t, c.actors) && t.At(PreSend) == t.At(InFlight) == 0 && a in c.actors
    ensures !c.actors[a].ReadyToSend? && !c.actors[a].Sending?
  {
    CountPositive(c.actors, a);
  }

  /** Only these two events touch the send counters. */
  lemma SendCounters(c: Cell, e: Event, c': Cell)
    requires Apply(c, e) == Some(c')
    ensures !e.SendStart? ==> c'.h.sends == c.h.sends
    ensures !e.SendReturn? ==> c'.h.successes == c.h.successes
  {
  }

  lemma NoSendStep(c: Cell, c': Cell)
    requires Inv(c) && Next(c, c') && c.h.successes >= 1
    ensures c'.h.sends == c.h.sends && c'.h.successes == c.h.successes == 1
  {
    hide Numbers, Inv;
    var t := TallyOf(c);
    NumbersSends(c.row, c.h, t);
    var e :| Apply(c, e) == Some(c');
    SendCounters(c, e, c');
    if e.SendStart? || e.SendReturn? {
      NobodyReadyToSend(c, e.a, t);
    }
  }

  /** Once a send has returned success, no further send of this notification ever starts. */
  lemma {:induction false} AtMostOneDelivery(run: seq<Cell>, i: nat, j: nat)
    requires IsRun(run) && i <= j < |run| && run[i].h.successes >= 1
    ensures run[j].h.sends == run[i].h.sends && run[j].h.successes == 1
    decreases j
  {
    hide Inv;
    if i < j {
      AtMostOneDelivery(run, i, j - 1);
      InvReachable(run, j - 1);
      RunStep(run, j - 1);
      NoSendStep(run[j - 1], run[j]);
    } else {
      BoundedSends(run, i);
    }
  }

  // ---------------------------------------------------------------------------------------------
  // Lifecycle
  // ---------------------------------------------------------------------------------------------

  /** A committed change of status is an edge of the lifecycle; rows are born pending and never disappear. */
  ghost predicate LegalChange(c: Cell, c': Cell) {
    match c.row
    case None => c'.row.Some? ==> c'.row.value.status == Pending && c'.row.value.attempts == 0
    case Some(r) => c'.row.Some? && (c'.row == c.row || CanTransitionTo(r.status, c'.row.value.status))
  }

  lemma WriteIsLegal(h: History, pc: Pc, now: Nanos, w: Write)
    requires Holds(h, pc) && WriteOf(pc, now) == Some(w)
    ensures CanTransitionTo(w.source, w.n.status)
  {
  }

  lemma UpdatedRow(c: Cell, a: ActorId, pc: Pc, w: Write, ack: Ack)
    ensures Updated(c, a, pc, w, ack).row == c.row
            || (GuardHolds(c.row, w.source) && Updated(c, a, pc, w, ack).row == Some(Written(c.row.value, w.n)))
  {
  }

  lemma ClaimedRowIsLegal(c: Cell, a: ActorId, now: Nanos, ack: Ack)
    ensures LegalChange(c, Claimed(c, a, now, ack))
  {
  }

  lemma SameRow(c: Cell, e: Event, c': Cell)
    requires Apply(c, e) == Some(c') && !e.Update? && !e.Insert? && !e.Claim?
    ensures c'.row == c.row && c'.h.claims == c.h.claims && c'.h.moves == c.h.moves
  {
  }

  lemma LegalStep(c: Cell, e: Event, c': Cell)
    requires Inv(c) && Apply(c, e) == Some(c')
    ensures LegalChange(c, c')
  {
    hide Numbers;
    if e.Update? {
      var pc := c.actors[e.a];
      assert Holds(c.h, pc);
      WriteIsLegal(c.h, pc, e.now, WriteOf(pc, e.now).value);
      UpdatedRow(c, e.a, pc, WriteOf(pc, e.now).value, e.ack);
    } else if e.Insert? {
      assert Holds(c.h, c.actors[e.a]);
    } else if e.Claim? {
      ClaimedRowIsLegal(c, e.a, e.now, e.ack);
    } else {
      SameRow(c, e, c');
    }
  }

  /** Every committed status change, by any interleaving of actors with stale copies, is an edge of the lifecycle. */
  lemma EveryChangeIsLegal(run: seq<Cell>, i: nat)
    requires IsRun(run) && i + 1 < |run|
    ensures LegalChange(run[i], run[i + 1])
    ensures run[i].row.None? && run[i + 1].row.Some? ==> run[i + 1].row.value.status == Pending && run[i + 1].row.value.attempts == 0
    ensures run[i].row.Some? ==>
              && run[i + 1].row.Some?
              && (run[i + 1].row == run[i].row
                  || (run[i].row.value.status, run[i + 1].row.value.status) in {
                       (Pending, Queued), (Pending, Cancelled), (Queued, Processing), (Queued, Cancelled), (Processing, Delivered),
                       (Processing, Failed), (Processing, Retrying), (Retrying, Processing), (Retrying, Cancelled)})
  {
    hide Inv;
    InvReachable(run, i);
    RunStep(run, i);
    var e :| Apply(run[i], e) == Some(run[i + 1]);
    LegalStep(run[i], e, run[i + 1]);
  }

  /** Delivered, failed and cancelled rows never change again, not even in a column that no guard protects. */
  lemma {:induction false} TerminalRowsAreFrozen(run: seq<Cell>, i: nat, j: nat)
    requires IsRun(run) && i <= j < |run| && run[i].row.Some? && IsTerminal(run[i].row.value.status)
    ensures run[j].row == run[i].row
    decreases j
  {
    if i < j {
      TerminalRowsAreFrozen(run, i, j - 1);
      EveryChangeIsLegal(run, j - 1);
    }
  }

  lemma NumbersCancelledQuiet(r: Row, h: History, t: Tally)
    requires Numbers(Some(r), h, t) && t.NonNegative() && r.status == Cancelled
    ensures t.Window() == 0 && t.At(PreSend) == t.At(InFlight) == 0
  {
  }

  lemma CancelledStep(c: Cell, c': Cell)
    requires Inv(c) && Next(c, c') && c.row.Some? && c.row.value.status == Cancelled
    ensures c'.h.sends == c.h.sends
    ensures forall a | a in c.actors :: !InWindow(c.actors[a])
  {
    hide Numbers, Inv;
    var t := TallyOf(c);
    NumbersCancelledQuiet(c.row.value, c.h, t);
    var e :| Apply(c, e) == Some(c');
    SendCounters(c, e, c');
    if e.SendStart? {
      NobodyReadyToSend(c, e.a, t);
    }
    forall a | a in c.actors
      ensures !InWindow(c.actors[a])
    {
      if InWindow(c.actors[a]) {
        WindowPositive(t, c.actors, a);
      }
    }
  }

  /**
   * After a cancellation commits, no send of this notification ever starts, whatever tasks are still
   * queued and however stale the canceller's copy was.
   */
  lemma {:induction false} CancellationIsFinal(run: seq<Cell>, i: nat, j: nat)
    requires IsRun(run) && i <= j < |run| && run[i].row.Some? && run[i].row.value.status == Cancelled
    ensures run[j].row == run[i].row
    ensures run[j].h.sends == run[i].h.sends
    decreases j
  {
    hide Inv;
    TerminalRowsAreFrozen(run, i, j);
    if i < j {
      CancellationIsFinal(run, i, j - 1);
      InvReachable(run, j - 1);
      RunStep(run, j - 1);
      CancelledStep(run[j - 1], run[j]);
    }
  }

  // ---------------------------------------------------------------------------------------------
  // The audit trail
  // ---------------------------------------------------------------------------------------------

  lemma NumbersTrail(row: Option<Row>, h: History, t: Tally)
    requires Numbers(row, h, t) && t.NonNegative()
    ensures h.log[LogCreated] <= 1 && h.log[LogQueued] <= 1
    ensures h.log[LogDelivered] + h.log[LogFailed] + h.log[LogCancelled] <= 1
    ensures h.log[LogDelivered] + h.log[LogRetrying] <= h.log[LogProcessing] <= h.claims
    ensures h.log[LogDelivered] > 0 ==> row.Some? && row.value.status == Delivered
    ensures h.log[LogFailed] > 0 ==> row.Some? && row.value.status == Failed
    ensures h.log[LogCancelled] > 0 ==> row.Some? && row.value.status == Cancelled
  {
  }

  /**
   * A notification's log holds at most one created, one queued and one terminal event, never more
   * outcomes than processing events, never more processing events than claims, and its terminal
   * event always names the status of the row.
   */
  lemma TrailAgreesWithRow(run: seq<Cell>, i: nat)
    requires IsRun(run) && i < |run|
    ensures var log := run[i].h.log;
            && log[LogCreated] <= 1 && log[LogQueued] <= 1
            && log[LogDelivered] + log[LogFailed] + log[LogCancelled] <= 1
            && log[LogDelivered] + log[LogRetrying] <= log[LogProcessing] <= run[i].h.claims
    ensures forall e, s | (e, s) in {(LogDelivered, Delivered), (LogFailed, Failed), (LogCancelled, Cancelled)} && run[i].h.log[e] > 0
              :: run[i].row.Some? && run[i].row.value.status == s
  {
    hide Numbers, Inv;
    InvReachable(run, i);
    var t := TallyOf(run[i]);
    NumbersTrail(run[i].row, run[i].h, t);
  }
}
