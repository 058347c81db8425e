/**
 * The reconciler as a safety net: no live row is beyond its reach for long, competing reconcilers
 * move and count each row at most once, and what a guard on the status alone does not protect.
 */
module SafetyNet {
  import opened Domain
  import opened RetryPolicy
  import opened Sweeps
  import opened Protocol
  import opened Invariant
  import opened Preservation
  import opened Guarantees
  import opened Ports

  // ---------------------------------------------------------------------------------------------
  // Every live row is swept
  // ---------------------------------------------------------------------------------------------

  lemma NumbersClocks(r: Row, h: History, t: Tally)
    requires Numbers(Some(r), h, t)
    ensures Clocks(r)
  {
  }

  /** A retrying row always says when its next attempt is due, between 1 s and 240 s after the write. */
  lemma RetriesAreScheduled(run: seq<Cell>, i: nat)
    requires IsRun(run) && i < |run| && run[i].row.Some? && run[i].row.value.status == Retrying
    ensures var r := run[i].row.value;
            r.nextRetryAt.Some? && r.updatedAt + 1_000_000_000 <= r.nextRetryAt.value <= r.updatedAt + 240_000_000_000
  {
    InvReachable(run, i);
    var t := TallyOf(run[i]);
    NumbersClocks(run[i].row.value, run[i].h, t);
  }

  function SweepFor(status: Status): Sweep
    requires !IsTerminal(status)
  {
    match status
    case Pending => OrphanedPending
    case Queued => StuckQueued
    case Processing => StuckProcessing
    case Retrying => OverdueRetrying
  }

  /**
   * In every reachable cell, a live row that has not changed for more than 14 minutes satisfies
   * exactly one sweep predicate; a queued row with a schedule does once the schedule is also more
   * than five minutes past, and before that it satisfies none.
   */
  lemma NoLiveRowEscapes(run: seq<Cell>, i: nat, now: Nanos)
    requires IsRun(run) && i < |run| && run[i].row.Some?
    requires !IsTerminal(run[i].row.value.status) && run[i].row.value.updatedAt + 840_000_000_000 < now
    ensures var r := run[i].row.value;
            (exists s :: Eligible(s, r, now)) <==>
            (r.status == Queued && r.scheduledAt.Some? ==> r.scheduledAt.value + 300_000_000_000 < now)
    ensures forall s | Eligible(s, run[i].row.value, now) :: s == SweepFor(run[i].row.value.status)
  {
    var r := run[i].row.value;
    InvReachable(run, i);
    var t := TallyOf(run[i]);
    NumbersClocks(r, run[i].h, t);
    forall s | Eligible(s, r, now)
      ensures s == SweepFor(r.status)
    {
    }
    if r.status == Queued && r.scheduledAt.Some? && r.scheduledAt.value + STUCK_QUEUED_THRESHOLD >= now {
      assert !Eligible(StuckQueued, r, now);
    } else {
      assert Eligible(SweepFor(r.status), r, now);
    }
  }

  /** The 14 minutes are tight: a fourth transient failure leaves a row that no sweep sees until then. */
  lemma NetDelayIsTight(n: Row, reason: string, at: Nanos, later: Nanos)
    requires n.status == Processing && n.attempts == 4
    requires later == at + 840_000_000_000
    ensures var w := OutcomeWrite(n, DeliveryResult(false, true, reason), at);
            && w.n.status == Retrying && w.n.updatedAt == at
            && (forall s :: !Eligible(s, w.n, later))
            && Eligible(OverdueRetrying, w.n, later + 1)
  {
    BackoffTable();
  }

  // ---------------------------------------------------------------------------------------------
  // Competing reconcilers
  // ---------------------------------------------------------------------------------------------

  lemma NumbersMoves(row: Option<Row>, h: History, t: Tally)
    requires Numbers(row, h, t) && t.NonNegative()
    ensures h.moves[(Processing, Failed)] <= 1 && h.moves[(Pending, Queued)] <= 1
    ensures h.timeoutCounts <= h.timeouts <= h.moves[(Processing, Failed)]
    ensures h.requeueCounts <= h.requeues <= h.moves[(Pending, Queued)]
    ensures h.moves[(Processing, Failed)] == 1 <==> row.Some? && row.value.status == Failed
    ensures h.moves[(Pending, Queued)] == 1 ==> row.Some? && row.value.status != Pending
  {
  }

  /** No reconciler is recorded more often than the row was counted. */
  ghost predicate CountsCover(h: History) {
    |h.stuckCounted| <= h.timeoutCounts && |h.requeueCounted| <= h.requeueCounts
  }

  lemma CountsCoverStep(c: Cell, e: Event, c': Cell)
    requires CountsCover(c.h) && Apply(c, e) == Some(c')
    ensures CountsCover(c'.h)
  {
    hide WriteOf, AfterAppend, AfterGet, AfterSelect, Written;
  }

  lemma {:induction false} CountsCovered(run: seq<Cell>, i: nat)
    requires IsRun(run) && i < |run|
    ensures CountsCover(run[i].h)
  {
    if i > 0 {
      CountsCovered(run, i - 1);
      RunStep(run, i - 1);
      hide Apply, CountsCover;
      var e :| Apply(run[i - 1], e) == Some(run[i]);
      CountsCoverStep(run[i - 1], e, run[i]);
    } else {
      RunStart(run);
    }
  }

  /** Any number of reconcilers (and workers and creators) move a row at most once over either edge. */
  lemma MovedAtMostOnce(run: seq<Cell>, i: nat)
    requires IsRun(run) && i < |run|
    ensures var h := run[i].h;
            && h.moves[(Processing, Failed)] <= 1 && h.moves[(Pending, Queued)] <= 1
            && |h.stuckCounted| <= h.timeouts <= h.moves[(Processing, Failed)]
            && |h.requeueCounted| <= h.requeues <= h.moves[(Pending, Queued)]
    ensures run[i].h.moves[(Processing, Failed)] == 1 <==> run[i].row.Some? && run[i].row.value.status == Failed
    ensures run[i].h.moves[(Pending, Queued)] == 1 ==> run[i].row.Some? && run[i].row.value.status != Pending
  {
    hide Numbers, Inv;
    InvReachable(run, i);
    var t := TallyOf(run[i]);
    NumbersMoves(run[i].row, run[i].h, t);
    CountsCovered(run, i);
  }

  // ---------------------------------------------------------------------------------------------
  // Losing a race
  // ---------------------------------------------------------------------------------------------

  /** A canceller or reconciler on its way to its only status write. */
  predicate BeforeWrite(pc: Pc) {
    pc.Reading? || pc.Cancelling? || pc.Scanning? || pc.Requeuing? || pc.TimingOut?
  }

  /** A canceller or reconciler past that write. */
  predicate AfterItsWrite(pc: Pc) {
    pc.LoggingCancelled? || pc.DroppingTask? || pc.LoggingRequeued? || pc.EnqueuingRequeued? || pc.LoggingTimeout? || pc.Reenqueuing?
  }

  predicate GaveUp(pc: Pc) {
    pc.Stopped? && !pc.err.ConcurrentUpdate?
  }

  /** A step of `a` leads from `c` to `c'`. */
  ghost predicate Steps(a: ActorId, c: Cell, c': Cell) {
    exists e: Event :: e.a == a && Apply(c, e) == Some(c')
  }

  lemma ReadLeadsToWrite(r: Row, sweep: Sweep, now: Nanos)
    ensures BeforeWrite(AfterGet(r, now)) || GaveUp(AfterGet(r, now))
    ensures BeforeWrite(AfterSelect(sweep, r, now)) || AfterItsWrite(AfterSelect(sweep, r, now))
  {
  }

  lemma OnlyWrite(pc: Pc, now: Nanos)
    requires BeforeWrite(pc)
    ensures WriteOf(pc, now).Some? ==> AfterItsWrite(WriteOf(pc, now).value.next)
  {
  }

  lemma NothingToLog(pc: Pc)
    requires BeforeWrite(pc)
    ensures EventOf(pc).None?
  {
  }

  lemma BeforeWriteStep(c: Cell, e: Event, c': Cell)
    requires Apply(c, e) == Some(c') && e.a in c.actors && BeforeWrite(c.actors[e.a])
    ensures e.a in c'.actors
    ensures var pc := c'.actors[e.a];
            || ((BeforeWrite(pc) || pc == Stopped(ConcurrentUpdate)) && c'.row == c.row && c'.h == c.h)
            || AfterItsWrite(pc) || GaveUp(pc)
  {
    hide WriteOf, EventOf, Eligible, Written, AfterWrite, AfterGet, AfterSelect;
    match e
    case Get(_, now, _) =>
      if c.row.Some? {
        ReadLeadsToWrite(c.row.value, OrphanedPending, now);
      }
    case Select(_, sweep, now) => ReadLeadsToWrite(c.row.value, sweep, now);
    case Update(_, now, _) => OnlyWrite(c.actors[e.a], now);
    case Append(_, _) => NothingToLog(c.actors[e.a]);
    case _ =>
  }

  lemma NothingToWrite(pc: Pc, now: Nanos)
    requires AfterItsWrite(pc)
    ensures WriteOf(pc, now).None?
  {
  }

  lemma AfterWriteStep(c: Cell, e: Event, c': Cell)
    requires Apply(c, e) == Some(c') && e.a in c.actors && AfterItsWrite(c.actors[e.a])
    ensures e.a in c'.actors && (AfterItsWrite(c'.actors[e.a]) || GaveUp(c'.actors[e.a]))
  {
    hide WriteOf, Eligible, AfterEntry, AfterRequeue, Inserted, Claimed, Updated, Limited, Handed, Answered, Read;
    if e.Update? {
      NothingToWrite(c.actors[e.a], e.now);
    }
  }

  /** Between steps i and j, `a` was at work all the time. */
  ghost predicate AtWork(run: seq<Cell>, i: nat, j: nat, a: ActorId) {
    i <= j < |run| && forall k | i <= k <= j :: a in run[k].actors && (k < j ==> !run[k].actors[a].Stopped?)
  }

  lemma {:induction false} NoWayBack(run: seq<Cell>, i: nat, j: nat, a: ActorId)
    requires IsRun(run) && AtWork(run, i, j, a) && AfterItsWrite(run[i].actors[a])
    ensures run[j].actors[a] != Stopped(ConcurrentUpdate)
    decreases j - i
  {
    hide IsRun, Apply;
    if i < j {
      RunStep(run, i);
      var e :| Apply(run[i], e) == Some(run[i + 1]);
      if e.a == a {
        AfterWriteStep(run[i], e, run[i + 1]);
      } else {
        OthersKeepMine(a, run[i], e, run[i + 1]);
      }
      if AfterItsWrite(run[i + 1].actors[a]) {
        NoWayBack(run, i + 1, j, a);
      }
    }
  }

  /**
   * A cancel request or a reconciler's handler that ends with a concurrent update has changed nothing:
   * none of its own steps, from its read on, touched the row or the history.
   */
  lemma {:induction false} LosersChangeNothing(run: seq<Cell>, i: nat, j: nat, a: ActorId)
    requires IsRun(run) && AtWork(run, i, j, a)
    requires var pc := run[i].actors[a]; pc.Reading? || pc.Cancelling? || pc.Scanning? || pc.Requeuing? || pc.TimingOut?
    requires run[j].actors[a] == Stopped(ConcurrentUpdate)
    ensures forall k | i <= k < j && Steps(a, run[k], run[k + 1]) :: run[k + 1].row == run[k].row && run[k + 1].h == run[k].h
    decreases j - i
  {
    hide IsRun, Apply;
    RunStep(run, i);
    var e :| Apply(run[i], e) == Some(run[i + 1]);
    if e.a == a {
      BeforeWriteStep(run[i], e, run[i + 1]);
    } else {
      OthersKeepMine(a, run[i], e, run[i + 1]);
    }
    if AfterItsWrite(run[i + 1].actors[a]) {
      NoWayBack(run, i + 1, j, a);
    } else if i + 1 < j {
      LosersChangeNothing(run, i + 1, j, a);
    }
    if Steps(a, run[i], run[i + 1]) {
      var mine: Event :| mine.a == a && Apply(run[i], mine) == Some(run[i + 1]);
      BeforeWriteStep(run[i], mine, run[i + 1]);
    }
  }

  // ---------------------------------------------------------------------------------------------
  // Counting what was moved
  // ---------------------------------------------------------------------------------------------

  ghost predicate Reached(c: Cell) {
    exists run :: IsRun(run) && run[|run| - 1] == c
  }

  function TimedOutRows(cells: map<Id, Cell>): set<Id> {
    set id | id in cells && cells[id].h.moves[(Processing, Failed)] == 1
  }

  function RequeuedRows(cells: map<Id, Cell>): set<Id> {
    set id | id in cells && cells[id].h.moves[(Pending, Queued)] == 1
  }

  /** The sizes of several sets of rows, added up. */
  function Total(counted: seq<set<Id>>): nat {
    if counted == [] then 0 else Total(counted[..|counted| - 1]) + |counted[|counted| - 1]|
  }

  /** Disjoint sets of counted rows within `rows` add up to at most the number of rows. */
  lemma {:induction false} TotalBounded(counted: seq<set<Id>>, rows: set<Id>)
    requires forall i | 0 <= i < |counted| :: counted[i] <= rows
    requires forall i, j | 0 <= i < j < |counted| :: counted[i] !! counted[j]
    ensures Total(counted) <= |rows|
  {
    if counted != [] {
      var front, last := counted[..|counted| - 1], counted[|counted| - 1];
      TotalBounded(front, rows - last);
      assert rows == (rows - last) + last;
    }
  }

  lemma AtMostOneMember(s: set<ActorId>, a: ActorId, b: ActorId)
    requires |s| <= 1 && a in s && b in s
    ensures a == b
  {
    assert |s - {a}| == |s| - 1;
    assert s - {a} == {};
  }

  /**
   * Summed over any number of distinct passes of any number of reconcilers, StuckProcessingFailed
   * never exceeds the rows that really moved from processing to failed, and
   * OrphanedPendingReenqueued never exceeds those that moved from pending to queued.
   */
  lemma CountersNeverExceedMoves(cells: map<Id, Cell>, passes: seq<ActorId>, stuck: seq<set<Id>>, requeued: seq<set<Id>>)
    requires forall id | id in cells :: Reached(cells[id])
    requires forall i, j | 0 <= i < j < |passes| :: passes[i] != passes[j]
    requires |stuck| == |requeued| == |passes|
    requires forall i | 0 <= i < |passes| :: stuck[i] <= StuckCountedBy(cells, passes[i])
    requires forall i | 0 <= i < |passes| :: requeued[i] <= RequeueCountedBy(cells, passes[i])
    ensures Total(stuck) <= |TimedOutRows(cells)|
    ensures Total(requeued) <= |RequeuedRows(cells)|
  {
    hide Apply;
    forall id | id in cells
      ensures var h := cells[id].h; |h.stuckCounted| <= h.moves[(Processing, Failed)] <= 1
      ensures var h := cells[id].h; |h.requeueCounted| <= h.moves[(Pending, Queued)] <= 1
    {
      var run :| IsRun(run) && run[|run| - 1] == cells[id];
      MovedAtMostOnce(run, |run| - 1);
    }
    forall i | 0 <= i < |passes|
      ensures stuck[i] <= TimedOutRows(cells) && requeued[i] <= RequeuedRows(cells)
    {
    }
    forall i, j | 0 <= i < j < |passes|
      ensures stuck[i] !! stuck[j]
      ensures requeued[i] !! requeued[j]
    {
      forall id | id in stuck[i] && id in stuck[j]
        ensures false
      {
        AtMostOneMember(cells[id].h.stuckCounted, passes[i], passes[j]);
      }
      forall id | id in requeued[i] && id in requeued[j]
        ensures false
      {
        AtMostOneMember(cells[id].h.requeueCounted, passes[i], passes[j]);
      }
    }
    TotalBounded(stuck, TimedOutRows(cells));
    TotalBounded(requeued, RequeuedRows(cells));
  }
}
