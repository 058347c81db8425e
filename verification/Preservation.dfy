/** Every step of every actor keeps the invariant, so every reachable cell satisfies it. */
module Preservation {
  import opened Domain
  import opened RetryPolicy
  import opened Sweeps
  import opened Protocol
  import opened Invariant

  // ---------------------------------------------------------------------------------------------
  // What actors hold
  // ---------------------------------------------------------------------------------------------

  /** A step that touches neither counter an actor's entity is measured against. */
  lemma HoldingQuiet(c: Cell, a: ActorId, pc: Pc, c': Cell)
    requires Holding(c) && c'.actors == c.actors[a := pc]
    requires c'.h.claims == c.h.claims && c'.h.successes == c.h.successes
    requires Holds(c'.h, pc)
    ensures Holding(c')
  {
    forall b | b in c'.actors
      ensures Holds(c'.h, c'.actors[b])
    {
      if b != a {
        assert Holds(c.h, c.actors[b]);
      }
    }
  }

  /** Nobody else is at a program counter whose entity is measured against a counter that changed. */
  lemma HoldingAlone(c: Cell, a: ActorId, pc: Pc, c': Cell, touched: set<Kind>)
    requires Holding(c) && c'.actors == c.actors[a := pc]
    requires forall k | k in touched :: Count(c.actors, k) == 0
    requires (c'.h.claims == c.h.claims && touched == {Replied}) || touched == {Fresh, PreSend, Throttled, InFlight, Replied}
    requires c'.h.claims >= c.h.claims
    requires Holds(c'.h, pc)
    ensures Holding(c')
  {
    forall b | b in c'.actors
      ensures Holds(c'.h, c'.actors[b])
    {
      if b != a {
        assert Holds(c.h, c.actors[b]);
        CountPositive(c.actors, b);
      }
    }
  }

  lemma NobodyAt(t: Tally, actors: map<ActorId, Pc>, k: Kind)
    requires Counts(t, actors) && k != Uncounted && t.At(k) == 0
    ensures Count(actors, k) == 0
  {
  }

  lemma NobodyInWindow(t: Tally, actors: map<ActorId, Pc>)
    requires Counts(t, actors) && t.Window() == 0
    ensures forall k | k in {Fresh, PreSend, Throttled, InFlight, Replied} :: Count(actors, k) == 0
  {
    assert t.At(Fresh) == t.At(PreSend) == t.At(Throttled) == t.At(InFlight) == t.At(Replied) == 0;
  }

  lemma EveryoneHolds(c: Cell)
    requires Inv(c)
    ensures Holding(c)
  {
  }

  lemma Conclude(c: Cell, t: Tally)
    requires Holding(c) && Counts(t, c.actors) && Numbers(c.row, c.h, t)
    ensures Inv(c)
  {
  }

  // ---------------------------------------------------------------------------------------------
  // Steps that leave the row alone
  // ---------------------------------------------------------------------------------------------

  /** Nothing requires anyone to be anywhere: whoever leaves, the accounts still hold. */
  lemma AccountsFewer(h: History, r: Row, t: Tally, fewer: Tally)
    requires Accounts(h, r, t) && fewer.AtMost(t) && fewer.NonNegative()
    ensures Accounts(h, r, fewer)
  {
  }

  lemma ShiftAway(t: Tally, from: Kind)
    requires t.NonNegative() && (from == Uncounted || t.At(from) >= 1)
    ensures t.Shift(from, Uncounted).AtMost(t) && t.Shift(from, Uncounted).NonNegative()
    ensures t.Shift(PreSend, PreSend) == t
    ensures from != Uncounted ==> t != NOBODY
    ensures t.Shift(Uncounted, Uncounted) == t
  {
  }

  /** An actor that stops, or moves on without touching a counter. */
  lemma NumbersGoto(row: Option<Row>, h: History, t: Tally, from: Kind, to: Kind)
    requires Numbers(row, h, t) && t.NonNegative() && (from == Uncounted || t.At(from) >= 1)
    requires to == Uncounted || (from == to == PreSend)
    ensures Numbers(row, h, t.Shift(from, to))
  {
    hide Accounts, Tally.Shift, Tally.At, Tally.AtMost, Tally.NonNegative;
    ShiftAway(t, from);
    if row.Some? && to == Uncounted {
      AccountsFewer(h, row.value, t, t.Shift(from, Uncounted));
    }
  }

  lemma StepGoto(c: Cell, a: ActorId, pc: Pc)
    requires Inv(c) && a in c.actors && Holds(c.h, pc)
    requires KindOf(pc) == Uncounted || KindOf(c.actors[a]) == KindOf(pc) == PreSend
    ensures Inv(Goto(c, a, pc))
  {
    hide Numbers, Inv, Counts, Tally.Shift, Tally.At, Tally.NonNegative;
    var t := TallyOf(c);
    CountsGoto(t, c.actors, a, pc, KindOf(c.actors[a]), KindOf(pc));
    NumbersGoto(c.row, c.h, t, KindOf(c.actors[a]), KindOf(pc));
    HoldingQuiet(c, a, pc, Goto(c, a, pc));
    Conclude(Goto(c, a, pc), t.Shift(KindOf(c.actors[a]), KindOf(pc)));
  }

  /** Tasks, broadcasts and hints are signals that no account depends on. */
  predicate SameButSignals(h: History, h': History) {
    h' == h.(tasks := h'.tasks, broadcasts := h'.broadcasts, hints := h'.hints)
  }

  lemma NumbersSignal(row: Option<Row>, h: History, t: Tally, h': History)
    requires Numbers(row, h, t) && SameButSignals(h, h')
    ensures Numbers(row, h', t)
  {
  }

  lemma SignalsHold(h: History, h': History, pc: Pc)
    requires SameButSignals(h, h') && Holds(h, pc)
    ensures Holds(h', pc) && h'.claims == h.claims && h'.successes == h.successes
  {
  }

  /** A step that only signals. */
  lemma StepSignal(c: Cell, a: ActorId, pc: Pc, h': History)
    requires Inv(c) && a in c.actors && Holds(c.h, pc) && SameButSignals(c.h, h')
    requires KindOf(pc) == Uncounted || KindOf(c.actors[a]) == KindOf(pc) == PreSend
    ensures Inv(Cell(c.row, c.actors[a := pc], h'))
  {
    hide Numbers, Inv, Counts, Tally.Shift, Tally.At, Tally.NonNegative, Holds, KindOf, SameButSignals;
    var t := TallyOf(c);
    var c' := Cell(c.row, c.actors[a := pc], h');
    CountsGoto(t, c.actors, a, pc, KindOf(c.actors[a]), KindOf(pc));
    NumbersGoto(c.row, c.h, t, KindOf(c.actors[a]), KindOf(pc));
    NumbersSignal(c.row, c.h, t.Shift(KindOf(c.actors[a]), KindOf(pc)), h');
    SignalsHold(c.h, h', pc);
    HoldingQuiet(c, a, pc, c');
    Conclude(c', t.Shift(KindOf(c.actors[a]), KindOf(pc)));
  }

  lemma NumbersDenied(row: Option<Row>, h: History, t: Tally)
    requires Numbers(row, h, t) && t.NonNegative() && t.At(PreSend) >= 1
    ensures Numbers(row, h.(denials := h.denials + 1), t.Shift(PreSend, Throttled))
  {
  }

  lemma LimitHolds(h: History, n: Row)
    ensures Holds(h, AskingLimiter(n)) ==> Holds(h, ReadyToSend(n)) && Holds(h.(denials := h.denials + 1), Rescheduling(n))
    ensures KindOf(AskingLimiter(n)) == KindOf(ReadyToSend(n)) == PreSend && KindOf(Rescheduling(n)) == Throttled
    ensures Holds(h, Stopped(PortFailure)) && KindOf(Stopped(PortFailure)) == Uncounted
  {
  }

  lemma StepLimit(c: Cell, a: ActorId, n: Row, verdict: Verdict)
    requires Inv(c) && a in c.actors && c.actors[a] == AskingLimiter(n)
    ensures Inv(Limited(c, a, n, verdict))
  {
    hide Numbers, Inv, Counts, Tally.Shift, Tally.At, Tally.NonNegative, Holds, KindOf;
    var t := TallyOf(c);
    assert Holds(c.h, c.actors[a]);
    LimitHolds(c.h, n);
    if verdict.Denied? {
      CountsGoto(t, c.actors, a, Rescheduling(n), PreSend, Throttled);
      NumbersDenied(c.row, c.h, t);
      HoldingQuiet(c, a, Rescheduling(n), Limited(c, a, n, verdict));
      Conclude(Limited(c, a, n, verdict), t.Shift(PreSend, Throttled));
    } else {
      StepGoto(c, a, if verdict.Allowed? then ReadyToSend(n) else Stopped(PortFailure));
    }
  }

  lemma NumbersHanded(row: Option<Row>, h: History, t: Tally)
    requires Numbers(row, h, t) && t.NonNegative() && t.At(PreSend) >= 1
    ensures Numbers(row, h.(sends := h.sends + 1), t.Shift(PreSend, InFlight))
  {
  }

  lemma StepSendStart(c: Cell, a: ActorId, n: Row)
    requires Inv(c) && a in c.actors && c.actors[a] == ReadyToSend(n)
    ensures Inv(Handed(c, a, n))
  {
    hide Numbers, Inv, Counts, Tally.Shift, Tally.At, Tally.NonNegative;
    var t := TallyOf(c);
    CountsGoto(t, c.actors, a, Sending(n), PreSend, InFlight);
    NumbersHanded(c.row, c.h, t);
    assert Holds(c.h, c.actors[a]);
    HoldingQuiet(c, a, Sending(n), Handed(c, a, n));
    Conclude(Handed(c, a, n), t.Shift(PreSend, InFlight));
  }

  lemma NumbersAnswered(row: Option<Row>, h: History, t: Tally, result: DeliveryResult)
    requires Numbers(row, h, t) && t.NonNegative() && t.At(InFlight) >= 1
    ensures Numbers(row, AfterAnswer(h, result), t.Shift(InFlight, Replied))
    ensures h.successes == 0 && t.At(Replied) == 0
  {
    if result.success {
    } else {
    }
  }

  lemma StepSendReturn(c: Cell, a: ActorId, n: Row, result: DeliveryResult)
    requires Inv(c) && a in c.actors && c.actors[a] == Sending(n)
    ensures Inv(Answered(c, a, n, result))
  {
    hide Numbers, Inv, Counts, Tally.Shift, Tally.At, Tally.NonNegative;
    var t := TallyOf(c);
    CountsGoto(t, c.actors, a, Applying(n, result), InFlight, Replied);
    NumbersAnswered(c.row, c.h, t, result);
    assert Holds(c.h, c.actors[a]);
    NobodyAt(t, c.actors, Replied);
    HoldingAlone(c, a, Applying(n, result), Answered(c, a, n, result), {Replied});
    Conclude(Answered(c, a, n, result), t.Shift(InFlight, Replied));
  }

  // ---------------------------------------------------------------------------------------------
  // The log
  // ---------------------------------------------------------------------------------------------

  lemma NumbersLogCreated(row: Option<Row>, h: History, t: Tally)
    requires Numbers(row, h, t) && t.NonNegative() && t.At(AtCreatedLog) >= 1
    ensures Numbers(row, h.(log := OneMore(h.log, LogCreated)), t.Shift(AtCreatedLog, Uncounted))
  {
  }

  lemma NumbersLogQueued(row: Option<Row>, h: History, t: Tally)
    requires Numbers(row, h, t) && t.NonNegative() && t.At(AtQueuedLog) >= 1
    ensures Numbers(row, h.(log := OneMore(h.log, LogQueued)), t.Shift(AtQueuedLog, Uncounted))
  {
  }

  lemma NumbersLogRequeued(row: Option<Row>, h: History, t: Tally, to: Kind)
    requires Numbers(row, h, t) && t.NonNegative() && t.At(AtRequeuedLog) >= 1 && (to == AtRequeuedEnqueue || to == Uncounted)
    ensures Numbers(row, h.(log := OneMore(h.log, LogQueued)), t.Shift(AtRequeuedLog, to))
  {
  }

  lemma NumbersLogProcessing(row: Option<Row>, h: History, t: Tally, to: Kind)
    requires Numbers(row, h, t) && t.NonNegative() && t.At(Fresh) >= 1 && (to == PreSend || to == Uncounted)
    ensures Numbers(row, h.(log := OneMore(h.log, LogProcessing)), t.Shift(Fresh, to))
  {
  }

  lemma NumbersLogDelivered(row: Option<Row>, h: History, t: Tally)
    requires Numbers(row, h, t) && t.NonNegative() && t.At(AtDeliveredLog) >= 1
    ensures Numbers(row, h.(log := OneMore(h.log, LogDelivered)), t.Shift(AtDeliveredLog, Uncounted))
  {
  }

  lemma NumbersLogFailed(row: Option<Row>, h: History, t: Tally)
    requires Numbers(row, h, t) && t.NonNegative() && t.At(AtFailedLog) >= 1
    ensures Numbers(row, h.(log := OneMore(h.log, LogFailed)), t.Shift(AtFailedLog, Uncounted))
  {
  }

  lemma NumbersLogRetrying(row: Option<Row>, h: History, t: Tally)
    requires Numbers(row, h, t) && t.NonNegative() && t.At(AtRetryingLog) >= 1
    ensures Numbers(row, h.(log := OneMore(h.log, LogRetrying)), t.Shift(AtRetryingLog, Uncounted))
  {
  }

  lemma NumbersLogCancelled(row: Option<Row>, h: History, t: Tally)
    requires Numbers(row, h, t) && t.NonNegative() && t.At(AtCancelledLog) >= 1
    ensures Numbers(row, h.(log := OneMore(h.log, LogCancelled)), t.Shift(AtCancelledLog, Uncounted))
  {
  }

  /** A logged timeout may also be counted by the reconciler that logged it. */
  lemma NumbersLogTimeout(row: Option<Row>, h: History, t: Tally, a: ActorId, acked: bool)
    requires Numbers(row, h, t) && t.NonNegative() && t.timeoutLog >= 1
    ensures Numbers(row, AfterEntry(h, a, LoggingTimeout, LogFailed, acked), t.Shift(AtTimeoutLog, Uncounted))
  {
  }

  lemma TimeoutAt(t: Tally)
    ensures t.At(AtTimeoutLog) == t.timeoutLog
  {
  }

  lemma PlainEntry(h: History, a: ActorId, pc: Pc, event: LogEvent, acked: bool)
    requires !pc.LoggingTimeout?
    ensures AfterEntry(h, a, pc, event, acked) == h.(log := OneMore(h.log, event))
  {
  }

  /** Which kind of actor appends which event, and where it goes. */
  lemma EntryKinds(pc: Pc)
    requires EventOf(pc).Some?
    ensures var next := KindOf(AfterAppend(pc));
            match pc
            case LoggingCreated(_) => EventOf(pc) == Some(LogCreated) && KindOf(pc) == AtCreatedLog && next == Uncounted
            case LoggingQueued => EventOf(pc) == Some(LogQueued) && KindOf(pc) == AtQueuedLog && next == Uncounted
            case LoggingRequeued => EventOf(pc) == Some(LogQueued) && KindOf(pc) == AtRequeuedLog && next == AtRequeuedEnqueue
            case LoggingProcessing(_) => EventOf(pc) == Some(LogProcessing) && KindOf(pc) == Fresh && next == PreSend
            case LoggingDelivered => EventOf(pc) == Some(LogDelivered) && KindOf(pc) == AtDeliveredLog && next == Uncounted
            case LoggingFailed => EventOf(pc) == Some(LogFailed) && KindOf(pc) == AtFailedLog && next == Uncounted
            case LoggingRetrying(_) => EventOf(pc) == Some(LogRetrying) && KindOf(pc) == AtRetryingLog && next == Uncounted
            case LoggingCancelled => EventOf(pc) == Some(LogCancelled) && KindOf(pc) == AtCancelledLog && next == Uncounted
            case LoggingTimeout => EventOf(pc) == Some(LogFailed) && KindOf(pc) == AtTimeoutLog && next == Uncounted
            case _ => false
  {
  }

  lemma NumbersAppend(row: Option<Row>, h: History, t: Tally, a: ActorId, pc: Pc, acked: bool)
    requires Numbers(row, h, t) && t.NonNegative() && EventOf(pc).Some? && t.At(KindOf(pc)) >= 1
    ensures Numbers(row, AfterEntry(h, a, pc, EventOf(pc).value, acked), t.Shift(KindOf(pc), if acked then KindOf(AfterAppend(pc)) else Uncounted))
  {
    hide Numbers, Tally.Shift, Tally.At, Tally.NonNegative, KindOf, EventOf, AfterAppend, AfterEntry;
    EntryKinds(pc);
    if !pc.LoggingTimeout? {
      PlainEntry(h, a, pc, EventOf(pc).value, acked);
    }
    match pc
    case LoggingCreated(_) => NumbersLogCreated(row, h, t);
    case LoggingQueued => NumbersLogQueued(row, h, t);
    case LoggingRequeued => NumbersLogRequeued(row, h, t, if acked then AtRequeuedEnqueue else Uncounted);
    case LoggingProcessing(_) => NumbersLogProcessing(row, h, t, if acked then PreSend else Uncounted);
    case LoggingDelivered => NumbersLogDelivered(row, h, t);
    case LoggingFailed => NumbersLogFailed(row, h, t);
    case LoggingRetrying(_) => NumbersLogRetrying(row, h, t);
    case LoggingCancelled => NumbersLogCancelled(row, h, t);
    case LoggingTimeout =>
      TimeoutAt(t);
      NumbersLogTimeout(row, h, t, a, acked);
  }

  lemma EntryHolds(h: History, a: ActorId, pc: Pc, acked: bool)
    requires EventOf(pc).Some? && Holds(h, pc)
    ensures var h', pc' := AfterEntry(h, a, pc, EventOf(pc).value, acked), if acked then AfterAppend(pc) else Stopped(PortFailure);
            Holds(h', pc') && h'.claims == h.claims && h'.successes == h.successes && (!acked ==> KindOf(pc') == Uncounted)
    ensures Holds(h, Stopped(PortFailure))
  {
  }

  lemma EventKind(pc: Pc)
    requires EventOf(pc).Some?
    ensures KindOf(pc) != Uncounted
  {
  }

  lemma StepAppend(c: Cell, a: ActorId, ack: Ack)
    requires Inv(c) && a in c.actors && EventOf(c.actors[a]).Some?
    ensures Inv(Appended(c, a, c.actors[a], EventOf(c.actors[a]).value, ack))
  {
    hide Numbers, Inv, Counts, Tally.Shift, Tally.At, Tally.NonNegative, Holds, KindOf, AfterEntry, AfterAppend, EventOf;
    var t := TallyOf(c);
    var pc := c.actors[a];
    assert Holds(c.h, pc);
    EntryHolds(c.h, a, pc, ack.Done?);
    if ack.Refused? {
      EntryHolds(c.h, a, pc, false);
      StepGoto(c, a, Stopped(PortFailure));
    } else {
      var c' := Appended(c, a, pc, EventOf(pc).value, ack);
      CountsGoto(t, c.actors, a, c'.actors[a], KindOf(pc), KindOf(c'.actors[a]));
      EventKind(pc);
      NumbersAppend(c.row, c.h, t, a, pc, ack.Done?);
      HoldingQuiet(c, a, c'.actors[a], c');
      Conclude(c', t.Shift(KindOf(pc), KindOf(c'.actors[a])));
    }
  }

  // ---------------------------------------------------------------------------------------------
  // The row
  // ---------------------------------------------------------------------------------------------

  lemma NumbersInsert(h: History, t: Tally, n: Row, to: Kind)
    requires Numbers(None, h, t) && IsNew(n) && (to == Uncounted || to == AtCreatedLog)
    ensures Numbers(Some(n), h, t.Shift(Uncounted, to))
  {
  }

  lemma StepInserted(c: Cell, a: ActorId, n: Row, pc: Pc)
    requires Inv(c) && a in c.actors && c.actors[a] == Inserting(n) && IsNew(n) && c.row.None?
    requires pc == LoggingCreated(n) || pc.Stopped?
    ensures Inv(Cell(Some(n), c.actors[a := pc], c.h))
  {
    hide Numbers, Inv, Counts, Tally.Shift, Tally.At, Tally.NonNegative;
    var t := TallyOf(c);
    var c' := Cell(Some(n), c.actors[a := pc], c.h);
    assert c.row == None;
    CountsGoto(t, c.actors, a, pc, Uncounted, KindOf(pc));
    NumbersInsert(c.h, t, n, KindOf(pc));
    HoldingQuiet(c, a, pc, c');
    Conclude(c', t.Shift(Uncounted, KindOf(pc)));
  }

  lemma StepInsert(c: Cell, a: ActorId, n: Row, ack: Ack)
    requires Inv(c) && a in c.actors && c.actors[a] == Inserting(n)
    ensures Inv(Inserted(c, a, n, ack))
  {
    hide Numbers, Inv, Counts, Tally.Shift, Tally.At, Tally.NonNegative;
    EveryoneHolds(c);
    assert Holds(c.h, c.actors[a]);
    if ack.Refused? || c.row.Some? {
      StepGoto(c, a, Stopped(PortFailure));
    } else {
      StepInserted(c, a, n, if ack.Done? then LoggingCreated(n) else Stopped(PortFailure));
    }
  }

  lemma NumbersClaim(r: Row, h: History, t: Tally, now: Nanos, to: Kind)
    requires Numbers(Some(r), h, t) && t.NonNegative() && Claimable(r) && (to == Uncounted || to == Fresh)
    ensures Numbers(Some(ClaimedRow(r, now)), AfterClaim(h, r.status), t.Shift(Uncounted, to))
    ensures t.Window() == 0 && r.attempts == h.claims
  {
  }

  lemma StoppedHolds(h: History, pc: Pc)
    requires pc.Stopped?
    ensures Holds(h, pc) && KindOf(pc) == Uncounted
  {
  }

  lemma StepClaimed(c: Cell, a: ActorId, r: Row, now: Nanos, pc: Pc)
    requires Inv(c) && a in c.actors && c.actors[a] == Claiming && c.row == Some(r) && Claimable(r)
    requires pc == LoggingProcessing(ClaimedRow(r, now)) || pc.Stopped?
    ensures Inv(Cell(Some(ClaimedRow(r, now)), c.actors[a := pc], AfterClaim(c.h, r.status)))
  {
    hide Numbers, Inv, Counts, Tally.Shift, Tally.At, Tally.NonNegative;
    var t := TallyOf(c);
    var c' := Cell(Some(ClaimedRow(r, now)), c.actors[a := pc], AfterClaim(c.h, r.status));
    CountsGoto(t, c.actors, a, pc, Uncounted, KindOf(pc));
    NumbersClaim(r, c.h, t, now, KindOf(pc));
    NobodyInWindow(t, c.actors);
    HoldingAlone(c, a, pc, c', {Fresh, PreSend, Throttled, InFlight, Replied});
    Conclude(c', t.Shift(Uncounted, KindOf(pc)));
  }

  lemma StepClaim(c: Cell, a: ActorId, now: Nanos, ack: Ack)
    requires Inv(c) && a in c.actors && c.actors[a] == Claiming
    ensures Inv(Claimed(c, a, now, ack))
  {
    hide Numbers, Inv, Counts, Tally.Shift, Tally.At, Tally.NonNegative, Holds, KindOf;
    if ack.Refused? || c.row.None? || !Claimable(c.row.value) || c.row.value.attempts >= MAX_INT32 {
      StoppedHolds(c.h, Claimed(c, a, now, ack).actors[a]);
      StepGoto(c, a, Claimed(c, a, now, ack).actors[a]);
    } else {
      StepClaimed(c, a, c.row.value, now, if ack.Done? then LoggingProcessing(ClaimedRow(c.row.value, now)) else Stopped(PortFailure));
    }
  }

  // ---------------------------------------------------------------------------------------------
  // Guarded writes
  // ---------------------------------------------------------------------------------------------

  /** Entering a kind, or none, changes one entry of the tally. */
  lemma Enters(t: Tally)
    ensures t.Shift(Uncounted, Uncounted) == t
    ensures t.Shift(Uncounted, AtQueuedLog) == t.(queuedLog := t.queuedLog + 1)
    ensures t.Shift(Uncounted, AtRequeuedLog) == t.(requeuedLog := t.requeuedLog + 1)
    ensures t.Shift(Uncounted, AtCancelledLog) == t.(cancelledLog := t.cancelledLog + 1)
    ensures t.Shift(Uncounted, AtTimeoutLog) == t.(timeoutLog := t.timeoutLog + 1)
  {
  }

  lemma NumbersQueued(r: Row, h: History, t: Tally, pc: Pc, w: Write, to: Kind)
    requires Numbers(Some(r), h, t) && t.NonNegative() && r.status == Pending
    requires (pc.MarkingQueued? && w.next.LoggingQueued?) || (pc.Requeuing? && w.next.LoggingRequeued?)
    requires w.source == Pending && w.n.status == Queued && w.n.attempts == 0
    requires to == Uncounted || to == KindOf(w.next)
    ensures Numbers(Some(Written(r, w.n)), AfterWrite(h, pc, w), t.Shift(Uncounted, to))
  {
    hide Tally.Shift;
    Enters(t);
  }

  lemma NumbersCancelled(r: Row, h: History, t: Tally, pc: Pc, w: Write, to: Kind)
    requires Numbers(Some(r), h, t) && t.NonNegative() && pc.Cancelling? && w.next.LoggingCancelled?
    requires r.status == w.source && (w.source == Pending || w.source == Queued || w.source == Retrying)
    requires w.n.status == Cancelled && w.n.attempts <= h.claims
    requires to == Uncounted || to == AtCancelledLog
    ensures Numbers(Some(Written(r, w.n)), AfterWrite(h, pc, w), t.Shift(Uncounted, to))
  {
    hide Tally.Shift;
    Enters(t);
  }

  lemma NumbersTimedOut(r: Row, h: History, t: Tally, pc: Pc, w: Write, to: Kind)
    requires Numbers(Some(r), h, t) && t.NonNegative() && pc.TimingOut? && w.next.LoggingTimeout?
    requires r.status == w.source == Processing && w.n.status == Failed && w.n.attempts <= h.claims
    requires to == Uncounted || to == AtTimeoutLog
    ensures Numbers(Some(Written(r, w.n)), AfterWrite(h, pc, w), t.Shift(Uncounted, to))
  {
    hide Tally.Shift;
    Enters(t);
  }

  /** So does leaving the window, with or without an entry still to be logged. */
  lemma Leaves(t: Tally)
    ensures t.Shift(Throttled, Uncounted) == t.(throttled := t.throttled - 1)
    ensures t.Shift(Replied, Uncounted) == t.(answered := t.answered - 1)
    ensures t.Shift(Throttled, AtRetryingLog) == t.(throttled := t.throttled - 1, retryingLog := t.retryingLog + 1)
    ensures t.Shift(Replied, AtRetryingLog) == t.(answered := t.answered - 1, retryingLog := t.retryingLog + 1)
    ensures t.Shift(Replied, AtDeliveredLog) == t.(answered := t.answered - 1, deliveredLog := t.deliveredLog + 1)
    ensures t.Shift(Replied, AtFailedLog) == t.(answered := t.answered - 1, failedLog := t.failedLog + 1)
  {
  }

  lemma LeavesFewer(t: Tally, from: Kind)
    requires t.NonNegative() && (from == Throttled || from == Replied) && t.At(from) >= 1
    ensures t.Shift(from, Uncounted).AtMost(t.Shift(from, AtRetryingLog)) && t.Shift(from, Uncounted).NonNegative()
  {
  }

  lemma AccountsDenied(r: Row, h: History, t: Tally, pc: Pc, w: Write)
    requires Accounts(h, r, t) && t.NonNegative() && pc.Rescheduling? && t.throttled >= 1
    requires r.status == w.source == Processing && w.n.status == Retrying && w.n.attempts == h.claims
    ensures Accounts(AfterWrite(h, pc, w), Written(r, w.n), t.(throttled := t.throttled - 1, retryingLog := t.retryingLog + 1))
  {
  }

  lemma AccountsTransient(r: Row, h: History, t: Tally, pc: Pc, w: Write)
    requires Accounts(h, r, t) && t.NonNegative() && pc.Applying? && t.answered >= 1
    requires r.status == w.source == Processing && w.n.status == Retrying && w.n.attempts == h.claims
    requires h.claims < DEFAULT_MAX_ATTEMPTS && h.successes == 0
    ensures Accounts(AfterWrite(h, pc, w), Written(r, w.n), t.(answered := t.answered - 1, retryingLog := t.retryingLog + 1))
  {
  }

  /** The write-back of a claim that ended in a retry: after a denial, or after a transient failure before the fifth attempt. */
  lemma AccountsRetrying(r: Row, h: History, t: Tally, pc: Pc, w: Write, to: Kind)
    requires Accounts(h, r, t) && t.NonNegative() && (pc.Rescheduling? || pc.Applying?) && t.At(KindOf(pc)) >= 1
    requires r.status == w.source == Processing && w.n.status == Retrying && w.n.attempts == h.claims
    requires pc.Applying? ==> h.claims < DEFAULT_MAX_ATTEMPTS && h.successes == 0
    requires to == Uncounted || to == AtRetryingLog
    ensures Accounts(AfterWrite(h, pc, w), Written(r, w.n), t.Shift(KindOf(pc), to))
  {
    hide Accounts, Tally.Shift, Tally.AtMost, Tally.NonNegative, AfterWrite, Written;
    Leaves(t);
    if pc.Rescheduling? {
      AccountsDenied(r, h, t, pc, w);
    } else {
      AccountsTransient(r, h, t, pc, w);
    }
    if to == Uncounted {
      LeavesFewer(t, KindOf(pc));
      AccountsFewer(AfterWrite(h, pc, w), Written(r, w.n), t.Shift(KindOf(pc), AtRetryingLog), t.Shift(KindOf(pc), Uncounted));
    }
  }

  lemma AccountsFinished(r: Row, h: History, t: Tally, pc: Pc, w: Write, to: Kind)
    requires Accounts(h, r, t) && t.NonNegative() && pc.Applying? && t.At(Replied) >= 1
    requires r.status == w.source == Processing && w.n.attempts == h.claims
    requires (w.n.status == Delivered && h.successes == 1) || (w.n.status == Failed && h.successes == 0)
    requires to == Uncounted || to == (if w.n.status == Delivered then AtDeliveredLog else AtFailedLog)
    ensures Accounts(AfterWrite(h, pc, w), Written(r, w.n), t.Shift(Replied, to))
  {
    hide Tally.Shift;
    Leaves(t);
  }

  lemma AnsweredFacts(r: Row, h: History, t: Tally)
    requires Accounts(h, r, t) && t.NonNegative() && t.At(Replied) >= 1
    ensures h.claims >= 1 && h.successes <= 1
  {
  }

  lemma OutcomeClocks(n: Row, result: DeliveryResult, now: Nanos, r: Row)
    requires n.attempts >= 1
    ensures Clocks(Written(r, OutcomeWrite(n, result, now).n)) && Clocks(Written(r, DenialWrite(n, now).n))
  {
    hide BackoffFor;
    if 1 <= n.attempts < DEFAULT_MAX_ATTEMPTS {
      RowBackoffBounds(n.attempts);
    }
  }

  lemma AccountsApplied(r: Row, h: History, t: Tally, pc: Pc, w: Write, to: Kind)
    requires Accounts(h, r, t) && t.NonNegative() && pc.Applying? && t.At(Replied) >= 1
    requires Holds(h, pc) && r.status == w.source == Processing && w.n.attempts == pc.n.attempts
    requires w.n.status == (if pc.result.success then Delivered
                            else if !pc.result.retryable || pc.n.attempts >= DEFAULT_MAX_ATTEMPTS then Failed else Retrying)
    requires to == Uncounted || to == KindOf(w.next)
    requires KindOf(w.next) == (if w.n.status == Delivered then AtDeliveredLog else if w.n.status == Failed then AtFailedLog else AtRetryingLog)
    ensures Accounts(AfterWrite(h, pc, w), Written(r, w.n), t.Shift(Replied, to))
  {
    AnsweredFacts(r, h, t);
    hide Accounts, Tally.Shift, Tally.At, Tally.NonNegative;
    if w.n.status == Retrying {
      AccountsRetrying(r, h, t, pc, w, to);
    } else {
      AccountsFinished(r, h, t, pc, w, to);
    }
  }

  lemma ClaimedOnce(r: Row, h: History, t: Tally, pc: Pc)
    requires Accounts(h, r, t) && r.status == Processing && Holds(h, pc) && (pc.Applying? || pc.Rescheduling?)
    ensures pc.n.attempts >= 1
  {
  }

  /** The write that ends a claim. */
  lemma NumbersReturned(r: Row, h: History, t: Tally, pc: Pc, now: Nanos, w: Write, to: Kind)
    requires Numbers(Some(r), h, t) && t.NonNegative() && (pc.Applying? || pc.Rescheduling?) && t.At(KindOf(pc)) >= 1
    requires Holds(h, pc) && WriteOf(pc, now) == Some(w) && r.status == Processing
    requires to == Uncounted || to == KindOf(w.next)
    ensures Numbers(Some(Written(r, w.n)), AfterWrite(h, pc, w), t.Shift(KindOf(pc), to))
  {
    hide Accounts, Clocks, BackoffFor, Tally.Shift, Tally.At, Tally.NonNegative;
    ClaimedOnce(r, h, t, pc);
    if pc.Applying? {
      OutcomeClocks(pc.n, pc.result, now, r);
      AccountsApplied(r, h, t, pc, w, to);
    } else {
      OutcomeClocks(pc.n, DeliveryResult(true, false, ""), now, r);
      AccountsRetrying(r, h, t, pc, w, to);
    }
  }

  lemma NumbersWrite(r: Row, h: History, t: Tally, pc: Pc, now: Nanos, w: Write, to: Kind)
    requires Numbers(Some(r), h, t) && t.NonNegative() && (KindOf(pc) == Uncounted || t.At(KindOf(pc)) >= 1)
    requires Holds(h, pc) && WriteOf(pc, now) == Some(w) && r.status == w.source
    requires to == Uncounted || to == KindOf(w.next)
    ensures Numbers(Some(Written(r, w.n)), AfterWrite(h, pc, w), t.Shift(KindOf(pc), to))
  {
    hide Numbers, Tally.Shift, Tally.At, Tally.NonNegative;
    match pc
    case MarkingQueued(_) => NumbersQueued(r, h, t, pc, w, to);
    case Requeuing(_, _) => NumbersQueued(r, h, t, pc, w, to);
    case Cancelling(_, _) => NumbersCancelled(r, h, t, pc, w, to);
    case TimingOut(_, _) => NumbersTimedOut(r, h, t, pc, w, to);
    case Rescheduling(_) => NumbersReturned(r, h, t, pc, now, w, to);
    case Applying(_, _) => NumbersReturned(r, h, t, pc, now, w, to);
  }

  lemma WriteHolds(h: History, pc: Pc, now: Nanos, w: Write, pc': Pc)
    requires WriteOf(pc, now) == Some(w) && (pc' == w.next || pc' == Stopped(PortFailure))
    ensures var h' := AfterWrite(h, pc, w); Holds(h', pc') && h'.claims == h.claims && h'.successes == h.successes
    ensures KindOf(pc') == Uncounted || KindOf(pc') == KindOf(w.next)
  {
  }

  lemma StepWritten(c: Cell, a: ActorId, r: Row, now: Nanos, w: Write, pc': Pc)
    requires Inv(c) && a in c.actors && c.row == Some(r)
    requires WriteOf(c.actors[a], now) == Some(w) && r.status == w.source
    requires pc' == w.next || pc' == Stopped(PortFailure)
    ensures Inv(Cell(Some(Written(r, w.n)), c.actors[a := pc'], AfterWrite(c.h, c.actors[a], w)))
  {
    hide Numbers, Inv, Counts, Tally.Shift, Tally.At, Tally.NonNegative, WriteOf, Written, AfterWrite, Holds, KindOf;
    var t := TallyOf(c);
    var pc := c.actors[a];
    var c' := Cell(Some(Written(r, w.n)), c.actors[a := pc'], AfterWrite(c.h, pc, w));
    WriteHolds(c.h, pc, now, w, pc');
    assert Holds(c.h, pc);
    CountsGoto(t, c.actors, a, pc', KindOf(pc), KindOf(pc'));
    NumbersWrite(r, c.h, t, pc, now, w, KindOf(pc'));
    HoldingQuiet(c, a, pc', c');
    Conclude(c', t.Shift(KindOf(pc), KindOf(pc')));
  }

  lemma StepUpdate(c: Cell, a: ActorId, now: Nanos, w: Write, ack: Ack)
    requires Inv(c) && a in c.actors && WriteOf(c.actors[a], now) == Some(w)
    ensures Inv(Updated(c, a, c.actors[a], w, ack))
  {
    hide Numbers, Inv, Counts, Tally.Shift, Tally.At, Tally.NonNegative;
    if ack.Refused? {
      StepGoto(c, a, Stopped(PortFailure));
    } else if !GuardHolds(c.row, w.source) {
      StepGoto(c, a, Stopped(ConcurrentUpdate));
    } else {
      StepWritten(c, a, c.row.value, now, w, if ack.Done? then w.next else Stopped(PortFailure));
    }
  }

  // ---------------------------------------------------------------------------------------------
  // The other calls
  // ---------------------------------------------------------------------------------------------

  lemma NumbersRequeued(row: Option<Row>, h: History, t: Tally, a: ActorId)
    requires Numbers(row, h, t) && t.NonNegative() && t.At(AtRequeuedEnqueue) >= 1
    ensures Numbers(row, AfterRequeue(h, a), t.Shift(AtRequeuedEnqueue, Uncounted))
  {
  }

  lemma EnqueuedHolds(h: History, pc: Pc, ok: bool)
    requires Holds(h, pc) && (pc.Enqueuing? || pc.Reenqueuing? || (pc.EnqueuingRequeued? && !ok))
    ensures var pc' := if ok && pc.Enqueuing? then MarkingQueued(pc.n) else if ok then Stopped(Nil) else Stopped(PortFailure);
            Holds(h, pc') && KindOf(pc') == Uncounted
  {
  }

  lemma RequeuedKinds()
    ensures KindOf(EnqueuingRequeued) == AtRequeuedEnqueue && KindOf(Stopped(Nil)) == Uncounted && forall h :: Holds(h, Stopped(Nil))
  {
  }

  lemma StepEnqueue(c: Cell, a: ActorId, ok: bool)
    requires Inv(c) && a in c.actors && Enqueued(c, a, c.actors[a], ok).Some?
    ensures Inv(Enqueued(c, a, c.actors[a], ok).value)
  {
    hide Numbers, Inv, Counts, Tally.Shift, Tally.At, Tally.NonNegative, Holds, KindOf;
    var t := TallyOf(c);
    var pc := c.actors[a];
    var c' := Enqueued(c, a, pc, ok).value;
    assert Holds(c.h, pc);
    if ok && pc.EnqueuingRequeued? {
      RequeuedKinds();
      CountsGoto(t, c.actors, a, Stopped(Nil), AtRequeuedEnqueue, Uncounted);
      NumbersRequeued(c.row, c.h, t, a);
      HoldingQuiet(c, a, Stopped(Nil), c');
      Conclude(c', t.Shift(AtRequeuedEnqueue, Uncounted));
    } else {
      EnqueuedHolds(c.h, pc, ok);
      if ok {
        StepSignal(c, a, c'.actors[a], AfterTask(c.h));
      } else {
        StepGoto(c, a, c'.actors[a]);
      }
    }
  }

  lemma AttemptsBounded(row: Row, h: History, t: Tally)
    requires Numbers(Some(row), h, t)
    ensures row.attempts <= h.claims
    ensures row.status == Pending ==> row.attempts == 0
  {
  }

  lemma ReadHolds(row: Option<Row>, h: History, t: Tally, now: Nanos, ok: bool)
    requires Numbers(row, h, t)
    ensures var pc := if !ok then Stopped(PortFailure) else if row.None? then Stopped(NotFound) else AfterGet(row.value, now);
            Holds(h, pc) && KindOf(pc) == Uncounted
  {
    hide Numbers;
    if row.Some? {
      AttemptsBounded(row.value, h, t);
    }
  }

  lemma StepGet(c: Cell, a: ActorId, now: Nanos, ok: bool)
    requires Inv(c) && a in c.actors && c.actors[a] == Reading
    ensures Inv(Read(c, a, now, ok))
  {
    hide Numbers, Inv, Counts, Tally.Shift, Tally.At, Tally.NonNegative, Holds, KindOf, AfterGet;
    var t := TallyOf(c);
    ReadHolds(c.row, c.h, t, now, ok);
    StepGoto(c, a, Read(c, a, now, ok).actors[a]);
  }

  lemma StepSelect(c: Cell, a: ActorId, sweep: Sweep, r: Row, now: Nanos)
    requires Inv(c) && a in c.actors && c.actors[a] == Scanning
    requires c.row == Some(r) && Eligible(sweep, r, now)
    ensures Inv(Goto(c, a, AfterSelect(sweep, r, now)))
  {
    hide Numbers, Inv, Counts, Tally.Shift, Tally.At, Tally.NonNegative;
    var t := TallyOf(c);
    AttemptsBounded(r, c.h, t);
    StepGoto(c, a, AfterSelect(sweep, r, now));
  }

  lemma StepSpawn(c: Cell, a: ActorId, entry: Pc)
    requires Inv(c) && IsEntry(entry) && (a !in c.actors || c.actors[a].Stopped?)
    ensures Inv(Goto(c, a, entry))
  {
    hide Numbers, Inv, Counts, Tally.Shift, Tally.At, Tally.NonNegative;
    var t := TallyOf(c);
    CountsSpawn(t, c.actors, a, entry);
    HoldingQuiet(c, a, entry, Goto(c, a, entry));
    Conclude(Goto(c, a, entry), t);
  }

  lemma PublishHolds(h: History, pc: Pc)
    requires Holds(h, pc) && pc.PublishingProcessing?
    ensures Holds(h, AskingLimiter(pc.n)) && KindOf(AskingLimiter(pc.n)) == KindOf(pc) == PreSend
  {
  }

  lemma StepPublish(c: Cell, a: ActorId, ok: bool, c': Cell)
    requires Inv(c) && Apply(c, Publish(a, ok)) == Some(c')
    ensures Inv(c')
  {
    hide Numbers, Inv, Counts, Tally.Shift, Tally.At, Tally.NonNegative, Holds, KindOf;
    EveryoneHolds(c);
    assert Holds(c.h, c.actors[a]);
    if c.actors[a].PublishingProcessing? && ok {
      PublishHolds(c.h, c.actors[a]);
    } else {
      StoppedHolds(c.h, c'.actors[a]);
    }
    if ok {
      StepSignal(c, a, c'.actors[a], AfterBroadcast(c.h));
    } else {
      StepGoto(c, a, c'.actors[a]);
    }
  }

  lemma StepDrop(c: Cell, a: ActorId, ok: bool)
    requires Inv(c) && a in c.actors && c.actors[a] == DroppingTask
    ensures Inv(Dropped(c, a, ok))
  {
    hide Numbers, Inv, Counts, Tally.Shift, Tally.At, Tally.NonNegative, Holds, KindOf;
    StoppedHolds(c.h, Stopped(if ok then Nil else PortFailure));
    if ok {
      StepSignal(c, a, Stopped(Nil), AfterHint(c.h));
    } else {
      StepGoto(c, a, Stopped(PortFailure));
    }
  }

  /** Whatever an actor does next, the invariant holds afterwards. */
  lemma InvStep(c: Cell, e: Event, c': Cell)
    requires Inv(c) && Apply(c, e) == Some(c')
    ensures Inv(c')
  {
    hide Inv;
    match e
    case Spawn(a, entry) => StepSpawn(c, a, entry);
    case Crash(a) => StepGoto(c, a, Stopped(Crashed));
    case Insert(a, ack) => StepInsert(c, a, c.actors[a].n, ack);
    case Claim(a, now, ack) => StepClaim(c, a, now, ack);
    case Append(a, ack) => StepAppend(c, a, ack);
    case Publish(a, ok) => StepPublish(c, a, ok, c');
    case Limit(a, verdict) => StepLimit(c, a, c.actors[a].n, verdict);
    case SendStart(a) => StepSendStart(c, a, c.actors[a].n);
    case SendReturn(a, result) => StepSendReturn(c, a, c.actors[a].n, result);
    case Update(a, now, ack) => StepUpdate(c, a, now, WriteOf(c.actors[a], now).value, ack);
    case Enqueue(a, ok) => StepEnqueue(c, a, ok);
    case Get(a, now, ok) => StepGet(c, a, now, ok);
    case Select(a, sweep, now) => StepSelect(c, a, sweep, c.row.value, now);
    case DropTask(a, ok) => StepDrop(c, a, ok);
  }

  lemma InvInitial()
    ensures Inv(EMPTY)
  {
    forall k: Kind | k != Uncounted
      ensures NOBODY.At(k) == Count(EMPTY.actors, k)
    {
      assert Members(EMPTY.actors, k) == {};
    }
    assert Counts(NOBODY, EMPTY.actors);
    assert Numbers(EMPTY.row, EMPTY.h, NOBODY);
  }

  lemma {:induction false} RunStart(run: seq<Cell>)
    requires IsRun(run)
    ensures run[0] == EMPTY
  {
    if |run| > 1 {
      RunStart(run[..|run| - 1]);
    }
  }

  /** The invariant holds in every cell of every run. */
  lemma {:induction false} InvReachable(run: seq<Cell>, i: nat)
    requires IsRun(run) && i < |run|
    ensures Inv(run[i])
  {
    hide Inv;
    if i == 0 {
      InvInitial();
      RunStart(run);
    } else {
      InvReachable(run, i - 1);
      RunStep(run, i - 1);
      var e :| Apply(run[i - 1], e) == Some(run[i]);
      InvStep(run[i - 1], e, run[i]);
    }
  }
}
