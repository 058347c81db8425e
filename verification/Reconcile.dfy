/** The reconciler: four sweeps, each over the rows of one SELECT, counting what it handled. */
module Reconcile {
  import opened Collections
  import opened Domain
  import opened RetryPolicy
  import opened Sweeps
  import opened Tables
  import opened Protocol
  import opened Ports
  import opened Lasting

  /** The counters of one pass. */
  class Output {
    var orphanedPendingReenqueued: nat
    var stuckProcessingFailed: nat
    var overdueRetryingReenqueued: nat
    var stuckQueuedReenqueued: nat

    constructor ()
      ensures orphanedPendingReenqueued == stuckProcessingFailed == overdueRetryingReenqueued == stuckQueuedReenqueued == 0
    {
      orphanedPendingReenqueued, stuckProcessingFailed := 0, 0;
      overdueRetryingReenqueued, stuckQueuedReenqueued := 0, 0;
    }
  }

  // ---------------------------------------------------------------------------------------------
  // One row
  // ---------------------------------------------------------------------------------------------

  lemma RequeuedEntry(n: Row, now: Nanos)
    ensures WriteOf(Requeuing(n, now), now) == Some(Write(Moved(n, Queued, now), Pending, LoggingRequeued))
    ensures EventOf(LoggingRequeued) == Some(LogQueued) && AfterAppend(LoggingRequeued) == EnqueuingRequeued
  {
  }

  /** Moves a pending row to queued, logs it and enqueues its task. */
  method HandleOrphanedPending(w: World, id: Id, me: ActorId, n: Notification, now: Nanos) returns (err: Error)
    requires w.Valid() && w.At(id, me, Requeuing(n.Snapshot(), now)) && n.status == Pending
    modifies w, n
    ensures w.Valid() && Extends(old(w.runs), w.runs) && Elsewhere(id, me, w.alone, old(w.cells), w.cells)
    ensures w.At(id, me, Stopped(err)) && err in {Nil, PortFailure, ConcurrentUpdate}
    ensures me in w.cells[id].h.requeueCounted <==> me in old(w.cells)[id].h.requeueCounted || err.Nil?
    ensures me in w.cells[id].h.stuckCounted <==> me in old(w.cells)[id].h.stuckCounted
    ensures err.Nil? ==>
              n.Snapshot() == Row(Queued, old(n.attempts), old(n.lastError), old(n.nextRetryAt), n.scheduledAt, n.createdAt, now)
    ensures err.Nil? ==> Landed(old(w.runs)[id], w.runs[id], n.Snapshot()) && w.cells[id].h.log[LogQueued] == 1
    ensures err.Nil? ==> w.cells[id].h.tasks > old(w.cells)[id].h.tasks
    ensures w.alone && old(w.cells)[id].row == Some(old(n.Snapshot())) && err.Nil? ==>
              w.cells[id].row == Some(Moved(old(n.Snapshot()), Queued, now))
    ensures w.alone && w.reliable && old(w.cells)[id].row == Some(old(n.Snapshot())) ==> err.Nil?
  {
    hide IsRun, Apply, Extends, Elsewhere, Landed, Logged, World.Valid, World.At, Carries, Written, WriteOf, EventOf, AfterAppend;
    RequeuedEntry(n.Snapshot(), now);
    RunAt(w, id, me, Requeuing(n.Snapshot(), now));
    LastCell(w, id);
    ExtendsItself(w.runs);
    var legal := n.MarkQueued(now);
    assert legal;
    err := w.UpdateStatus(id, me, n, Pending, Requeuing(old(n.Snapshot()), now), LoggingRequeued);
    if !err.Nil? {
      return;
    }
    RunAt(w, id, me, LoggingRequeued);
    label updated:
    err := w.AppendLog(id, me, LogQueued, LoggingRequeued);
    ExtendsTransitively(old(w.runs), old@updated(w.runs), w.runs);
    ElsewhereTransitively(id, me, w.alone, old(w.cells), old@updated(w.cells), w.cells);
    if !err.Nil? {
      return;
    }
    RunAt(w, id, me, EnqueuingRequeued);
    SignalsKept(w, id, old(w.runs), old(w.cells)[id]);
    label appended:
    err := w.EnqueueTask(id, me, EnqueuingRequeued);
    RunAt(w, id, me, Stopped(err));
    StillLogged(old@appended(w.runs), w.runs, id, LogQueued);
    LoggedForGood(w, id, LogQueued);
    ExtendsTransitively(old@updated(w.runs), old@appended(w.runs), w.runs);
    StillThere(old(w.runs), old(w.runs), old@updated(w.runs), w.runs, id, n.Snapshot());
    ExtendsTransitively(old(w.runs), old@appended(w.runs), w.runs);
    ElsewhereTransitively(id, me, w.alone, old(w.cells), old@appended(w.cells), w.cells);
  }

  /** Marks a processing row as failed with worker_timeout and logs it. */
  method HandleStuckProcessing(w: World, id: Id, me: ActorId, n: Notification, now: Nanos) returns (err: Error)
    requires w.Valid() && w.At(id, me, TimingOut(n.Snapshot(), now)) && n.status == Processing
    modifies w, n
    ensures w.Valid() && Extends(old(w.runs), w.runs) && Elsewhere(id, me, w.alone, old(w.cells), w.cells)
    ensures w.At(id, me, Stopped(err)) && err in {Nil, PortFailure, ConcurrentUpdate}
    ensures me in w.cells[id].h.stuckCounted <==> me in old(w.cells)[id].h.stuckCounted || err.Nil?
    ensures me in w.cells[id].h.requeueCounted <==> me in old(w.cells)[id].h.requeueCounted
    ensures err.Nil? ==>
              && w.cells[id].row.Some?
              && var r := w.cells[id].row.value;
                 r == Row(Failed, old(n.attempts), "worker_timeout", old(n.nextRetryAt), r.scheduledAt, r.createdAt, now)
    ensures err.Nil? ==> Carries(w.cells[id].row, MarkedFailed(old(n.Snapshot()), now, "worker_timeout"))
                         && w.cells[id].h.log[LogFailed] == 1
    ensures w.alone && old(w.cells)[id].row == Some(old(n.Snapshot())) && err.Nil? ==>
              w.cells[id].row == Some(MarkedFailed(old(n.Snapshot()), now, "worker_timeout"))
    ensures w.alone && w.reliable && old(w.cells)[id].row == Some(old(n.Snapshot())) ==> err.Nil?
  {
    hide IsRun, Apply, Extends, Elsewhere, Landed, Logged, World.Valid;
    HasRun(w, id);
    ExtendsItself(w.runs);
    var legal := n.MarkFailed(now, "worker_timeout");
    assert legal;
    err := w.UpdateStatus(id, me, n, Processing, TimingOut(old(n.Snapshot()), now), LoggingTimeout);
    if !err.Nil? {
      return;
    }
    HasRun(w, id);
    label updated:
    err := w.AppendLog(id, me, LogFailed, LoggingTimeout);
    if err.Nil? {
      StillThere(old(w.runs), old(w.runs), old@updated(w.runs), w.runs, id, n.Snapshot());
      LandedForGood(w, id, old(w.runs)[id], n.Snapshot());
      ColumnsCarried(w.cells[id].row, n.Snapshot());
      LoggedForGood(w, id, LogFailed);
    }
    ExtendsTransitively(old(w.runs), old@updated(w.runs), w.runs);
    ElsewhereTransitively(id, me, w.alone, old(w.cells), old@updated(w.cells), w.cells);
  }

  /** Re-enqueues an overdue retrying row, or a queued row that lost its task, without touching it. */
  method HandleReenqueue(w: World, id: Id, me: ActorId) returns (err: Error)
    requires w.Valid() && w.At(id, me, Reenqueuing)
    modifies w
    ensures w.Valid() && Extends(old(w.runs), w.runs) && Elsewhere(id, me, w.alone, old(w.cells), w.cells)
    ensures w.At(id, me, Stopped(err))
    ensures SameCounted(me, old(w.cells)[id], w.cells[id])
    ensures err.Nil? ==> w.cells[id].h.tasks > old(w.cells)[id].h.tasks
    ensures w.alone ==> w.cells[id].row == old(w.cells)[id].row
    ensures err in {Nil, PortFailure} && (w.reliable ==> err.Nil?)
  {
    err := w.EnqueueTask(id, me, Reenqueuing);
  }

  // ---------------------------------------------------------------------------------------------
  // What a sweep does to the table
  // ---------------------------------------------------------------------------------------------

  /** A row after its handler; the two re-enqueueing handlers leave it alone. */
  function Handled(sweep: Sweep, r: Row, now: Nanos): Row {
    match sweep
    case OrphanedPending => Moved(r, Queued, now)
    case StuckProcessing => MarkedFailed(r, now, "worker_timeout")
    case _ => r
  }

  /** The table after a sweep that handled every row of `ids`. */
  function Swept(table: Table, sweep: Sweep, ids: seq<Id>, now: Nanos): Table {
    map id | id in table :: if id in ids then Handled(sweep, table[id], now) else table[id]
  }

  // ---------------------------------------------------------------------------------------------
  // The loop over the selected rows, k of them handled
  // ---------------------------------------------------------------------------------------------

  /** `me` still holds rows k onwards and has no other call in progress. */
  ghost predicate Progress(me: ActorId, cells: map<Id, Cell>, found: seq<Found>, k: nat, sweep: Sweep, now: Nanos) {
    && (forall j | k <= j < |found| ::
          found[j].id in cells && me in cells[found[j].id].actors
          && cells[found[j].id].actors[me] == AfterSelect(sweep, found[j].row, now))
    && (forall id | id in cells && me in cells[id].actors && !cells[id].actors[me].Stopped? ::
          exists j :: k <= j < |found| && found[j].id == id)
  }

  lemma ProgressStarts(me: ActorId, cells: map<Id, Cell>, found: seq<Found>, sweep: Sweep, now: Nanos)
    requires forall j | 0 <= j < |found| ::
               found[j].id in cells && me in cells[found[j].id].actors
               && cells[found[j].id].actors[me] == AfterSelect(sweep, found[j].row, now)
    requires forall id | id in cells && id !in IdsOf(found) && me in cells[id].actors :: cells[id].actors[me].Stopped?
    ensures Progress(me, cells, found, 0, sweep, now)
  {
    forall id | id in cells && me in cells[id].actors && !cells[id].actors[me].Stopped?
      ensures exists j :: 0 <= j < |found| && found[j].id == id
    {
      var j :| 0 <= j < |IdsOf(found)| && IdsOf(found)[j] == id;
      assert found[j].id == id;
    }
  }

  lemma ProgressStep(me: ActorId, alone: bool, cells: map<Id, Cell>, cells': map<Id, Cell>,
                     found: seq<Found>, k: nat, sweep: Sweep, now: Nanos)
    requires Progress(me, cells, found, k, sweep, now) && Unrepeated(IdsOf(found)) && k < |found|
    requires Elsewhere(found[k].id, me, alone, cells, cells')
    requires found[k].id in cells' && me in cells'[found[k].id].actors && cells'[found[k].id].actors[me].Stopped?
    ensures Progress(me, cells', found, k + 1, sweep, now)
  {
    forall id | id in cells' && me in cells'[id].actors && !cells'[id].actors[me].Stopped?
      ensures exists j :: k + 1 <= j < |found| && found[j].id == id
    {
      assert id != found[k].id && SameFor(me, cells[id], cells'[id]);
      var j :| k <= j < |found| && found[j].id == id;
      assert j != k;
    }
  }

  lemma ProgressEnds(me: ActorId, cells: map<Id, Cell>, found: seq<Found>, sweep: Sweep, now: Nanos)
    requires Progress(me, cells, found, |found|, sweep, now)
    ensures Idle(me, cells)
  {
  }

  /** The ids of the first k rows. */
  function FirstIds(found: seq<Found>, k: nat): set<Id>
    requires k <= |found|
  {
    SetOf(IdsOf(found)[..k])
  }

  lemma FirstIdsSize(found: seq<Found>, k: nat)
    requires k <= |found| && Unrepeated(IdsOf(found))
    ensures |FirstIds(found, k)| == k
    ensures k < |found| ==> found[k].id !in FirstIds(found, k) && FirstIds(found, k + 1) == FirstIds(found, k) + {found[k].id}
  {
    var ids := IdsOf(found);
    SetOfSize(ids[..k]);
    if k < |found| {
      assert ids[..k + 1] == ids[..k] + [found[k].id];
      assert FirstIds(found, k + 1) == FirstIds(found, k) + {found[k].id};
    }
  }

  lemma FirstIdsCount(found: seq<Found>, k: nat)
    requires k <= |found| && Unrepeated(IdsOf(found))
    ensures |FirstIds(found, k)| == k && (k == 0 ==> FirstIds(found, k) == {})
  {
    FirstIdsSize(found, k);
  }

  /** A handler changes what `me` counted on its own row only. */
  lemma CountedStep(id: Id, me: ActorId, alone: bool, cells: map<Id, Cell>, cells': map<Id, Cell>)
    requires Elsewhere(id, me, alone, cells, cells') && id in cells
    ensures StuckCountedBy(cells', me) == (if me in cells'[id].h.stuckCounted then StuckCountedBy(cells, me) + {id}
                                           else StuckCountedBy(cells, me) - {id})
    ensures RequeueCountedBy(cells', me) == (if me in cells'[id].h.requeueCounted then RequeueCountedBy(cells, me) + {id}
                                             else RequeueCountedBy(cells, me) - {id})
  {
    assert forall x | x in cells && x != id :: SameFor(me, cells[x], cells'[x]);
  }

  lemma CountedSame(me: ActorId, cells: map<Id, Cell>, cells': map<Id, Cell>)
    requires cells.Keys == cells'.Keys && forall id | id in cells :: SameCounted(me, cells[id], cells'[id])
    ensures StuckCountedBy(cells', me) == StuckCountedBy(cells, me)
    ensures RequeueCountedBy(cells', me) == RequeueCountedBy(cells, me)
  {
    assert forall id | id in cells' :: SameCounted(me, cells[id], cells'[id]);
  }

  lemma CountedElsewhere(id: Id, me: ActorId, alone: bool, cells: map<Id, Cell>, cells': map<Id, Cell>)
    requires Elsewhere(id, me, alone, cells, cells') && id in cells && SameCounted(me, cells[id], cells'[id])
    ensures StuckCountedBy(cells', me) == StuckCountedBy(cells, me)
    ensures RequeueCountedBy(cells', me) == RequeueCountedBy(cells, me)
  {
    assert forall x | x in cells && x != id :: SameFor(me, cells[x], cells'[x]);
  }

  lemma ElsewhereKeys(id: Id, me: ActorId, alone: bool, cells: map<Id, Cell>, cells': map<Id, Cell>)
    requires Elsewhere(id, me, alone, cells, cells')
    ensures cells'.Keys == cells.Keys
  {
  }

  lemma HeldNow(me: ActorId, cells: map<Id, Cell>, found: seq<Found>, k: nat, sweep: Sweep, now: Nanos)
    requires Progress(me, cells, found, k, sweep, now) && k < |found|
    ensures found[k].id in cells && me in cells[found[k].id].actors
    ensures cells[found[k].id].actors[me] == AfterSelect(sweep, found[k].row, now)
  {
  }

  /** The k-th handler moves its own row into the orphans that `me` has counted if it succeeds, and touches nothing else. */
  lemma RequeueCountedNext(me: ActorId, alone: bool, cells: map<Id, Cell>, cells': map<Id, Cell>, found: seq<Found>, k: nat, ok: bool)
    requires k < |found| && Unrepeated(IdsOf(found)) && found[k].id in cells
    requires Elsewhere(found[k].id, me, alone, cells, cells') && RequeueCountedBy(cells, me) == FirstIds(found, k)
    requires var h, h' := cells[found[k].id].h, cells'[found[k].id].h;
             && (me in h'.requeueCounted <==> me in h.requeueCounted || ok)
             && (me in h'.stuckCounted <==> me in h.stuckCounted)
    ensures RequeueCountedBy(cells', me) == FirstIds(found, if ok then k + 1 else k)
    ensures StuckCountedBy(cells', me) == StuckCountedBy(cells, me) && cells'.Keys == cells.Keys
  {
    hide FirstIds, Unrepeated;
    FirstIdsSize(found, k);
    CountedStep(found[k].id, me, alone, cells, cells');
  }

  /** The same for the rows that `me` has counted as stuck. */
  lemma StuckCountedNext(me: ActorId, alone: bool, cells: map<Id, Cell>, cells': map<Id, Cell>, found: seq<Found>, k: nat, ok: bool)
    requires k < |found| && Unrepeated(IdsOf(found)) && found[k].id in cells
    requires Elsewhere(found[k].id, me, alone, cells, cells') && StuckCountedBy(cells, me) == FirstIds(found, k)
    requires var h, h' := cells[found[k].id].h, cells'[found[k].id].h;
             && (me in h'.stuckCounted <==> me in h.stuckCounted || ok)
             && (me in h'.requeueCounted <==> me in h.requeueCounted)
    ensures StuckCountedBy(cells', me) == FirstIds(found, if ok then k + 1 else k)
    ensures RequeueCountedBy(cells', me) == RequeueCountedBy(cells, me) && cells'.Keys == cells.Keys
  {
    hide FirstIds, Unrepeated;
    FirstIdsSize(found, k);
    CountedStep(found[k].id, me, alone, cells, cells');
  }

  lemma HandledRows(r: Row, now: Nanos)
    ensures Handled(OrphanedPending, r, now) == Moved(r, Queued, now)
    ensures Handled(StuckProcessing, r, now) == MarkedFailed(r, now, "worker_timeout")
    ensures Handled(OverdueRetrying, r, now) == Handled(StuckQueued, r, now) == r
  {
  }

  lemma AtNow(w: World, id: Id, me: ActorId, pc: Pc)
    requires id in w.cells && me in w.cells[id].actors && w.cells[id].actors[me] == pc
    ensures w.At(id, me, pc)
  {
  }

  lemma StoppedNow(w: World, id: Id, me: ActorId, err: Error)
    requires w.At(id, me, Stopped(err))
    ensures id in w.cells && me in w.cells[id].actors && w.cells[id].actors[me].Stopped?
  {
  }

  /** The rows when nobody interferes: the first k handled, the others of the selection as selected. */
  ghost predicate RowsSoFar(table: Table, cells: map<Id, Cell>, found: seq<Found>, k: nat, sweep: Sweep, now: Nanos) {
    && table.Keys <= cells.Keys
    && (forall j | 0 <= j < |found| :: found[j].id in table && table[found[j].id] == found[j].row)
    && (forall j | 0 <= j < |found| ::
          cells[found[j].id].row == Some(if j < k then Handled(sweep, found[j].row, now) else found[j].row))
    && (forall id | id in cells && (forall j | 0 <= j < |found| :: found[j].id != id) ::
          cells[id].row == if id in table then Some(table[id]) else None)
  }

  lemma RowNow(table: Table, cells: map<Id, Cell>, found: seq<Found>, k: nat, sweep: Sweep, now: Nanos)
    requires RowsSoFar(table, cells, found, k, sweep, now) && k < |found|
    ensures found[k].id in cells && cells[found[k].id].row == Some(found[k].row)
  {
  }

  lemma RowsStart(cells: map<Id, Cell>, found: seq<Found>, sweep: Sweep, now: Nanos)
    requires forall j | 0 <= j < |found| :: found[j].id in cells && cells[found[j].id].row == Some(found[j].row)
    ensures RowsSoFar(TableOf(cells), cells, found, 0, sweep, now)
  {
  }

  lemma RowsStep(table: Table, me: ActorId, cells: map<Id, Cell>, cells': map<Id, Cell>,
                 found: seq<Found>, k: nat, sweep: Sweep, now: Nanos)
    requires RowsSoFar(table, cells, found, k, sweep, now) && Unrepeated(IdsOf(found)) && k < |found|
    requires Elsewhere(found[k].id, me, true, cells, cells')
    requires found[k].id in cells' && cells'[found[k].id].row == Some(Handled(sweep, found[k].row, now))
    ensures RowsSoFar(table, cells', found, k + 1, sweep, now)
  {
    forall j | 0 <= j < |found| && j != k
      ensures cells'[found[j].id] == cells[found[j].id]
    {
      assert found[j].id in cells && found[j].id != found[k].id;
    }
  }

  lemma RowsEnd(table: Table, cells: map<Id, Cell>, found: seq<Found>, sweep: Sweep, now: Nanos)
    requires RowsSoFar(table, cells, found, |found|, sweep, now)
    ensures TableOf(cells) == Swept(table, sweep, IdsOf(found), now)
  {
    var after, swept := TableOf(cells), Swept(table, sweep, IdsOf(found), now);
    forall id | id in cells
      ensures id in after <==> id in swept
      ensures id in after ==> after[id] == swept[id]
    {
      if id in IdsOf(found) {
        var j :| 0 <= j < |found| && found[j].id == id;
      } else {
        forall j | 0 <= j < |found|
          ensures found[j].id != id
        {
          assert IdsOf(found)[j] == found[j].id;
        }
      }
    }
  }

  // ---------------------------------------------------------------------------------------------
  // The four sweeps
  // ---------------------------------------------------------------------------------------------

  /**
   * What every sweep guarantees when nobody interferes and it reports no error: it handled exactly a
   * selection of the table it found, and nothing else changed.
   */
  ghost predicate SweptSelection(table: Table, table': Table, sweep: Sweep, ids: seq<Id>, now: Nanos) {
    IsSelection(table, sweep, now, RECONCILER_BATCH_SIZE, ids) && table' == Swept(table, sweep, ids, now)
  }

  /** Each row found was in the table at some moment of the sweep, and the sweep may take it. */
  ghost predicate AllSeen(before: map<Id, seq<Cell>>, after: map<Id, seq<Cell>>, found: seq<Found>, sweep: Sweep, now: Nanos) {
    forall k | 0 <= k < |found| ::
      && Eligible(sweep, found[k].row, now) && found[k].id in before && found[k].id in after
      && Seen(before[found[k].id], after[found[k].id], found[k].row)
  }

  lemma AllSeenStill(r0: map<Id, seq<Cell>>, r1: map<Id, seq<Cell>>, r2: map<Id, seq<Cell>>, found: seq<Found>, sweep: Sweep, now: Nanos)
    requires Extends(r0, r1) && Extends(r1, r2) && AllSeen(r0, r1, found, sweep, now)
    ensures AllSeen(r0, r2, found, sweep, now)
  {
    hide Extends, Seen, Eligible;
    AllStillSeen(r0, r1, r2, found);
  }

  lemma FirstIdsFound(found: seq<Found>, k: nat, id: Id) returns (j: nat)
    requires k <= |found| && id in FirstIds(found, k)
    ensures j < k && found[j].id == id
  {
    j :| 0 <= j < |IdsOf(found)[..k]| && IdsOf(found)[..k][j] == id;
  }

  /** Each of these rows was one for the sweep at some moment between the end of one part of its run and that of a longer one. */
  ghost predicate WereSeen(before: map<Id, seq<Cell>>, after: map<Id, seq<Cell>>, ids: set<Id>, sweep: Sweep, now: Nanos) {
    forall id | id in ids ::
      && id in before && id in after
      && exists i :: |before[id]| - 1 <= i < |after[id]| && i >= 0 && after[id][i].row.Some? && Eligible(sweep, after[id][i].row.value, now)
  }

  lemma NoneWereSeen(before: map<Id, seq<Cell>>, after: map<Id, seq<Cell>>, sweep: Sweep, now: Nanos)
    ensures WereSeen(before, after, {}, sweep, now)
  {
  }

  lemma FirstWereSeen(before: map<Id, seq<Cell>>, after: map<Id, seq<Cell>>, found: seq<Found>, k: nat, sweep: Sweep, now: Nanos)
    requires AllSeen(before, after, found, sweep, now) && k <= |found|
    ensures WereSeen(before, after, FirstIds(found, k), sweep, now)
  {
    hide FirstIds, Eligible;
    forall id | id in FirstIds(found, k)
      ensures id in before && id in after
      ensures exists i :: |before[id]| - 1 <= i < |after[id]| && i >= 0 && after[id][i].row.Some? && Eligible(sweep, after[id][i].row.value, now)
    {
      var j := FirstIdsFound(found, k, id);
      var i :| |before[id]| - 1 <= i < |after[id]| && i >= 0 && after[id][i].row == Some(found[j].row);
    }
  }

  /** What was seen in part of the runs was seen in all of them. */
  lemma SeenThroughout(r0: map<Id, seq<Cell>>, r1: map<Id, seq<Cell>>, r2: map<Id, seq<Cell>>, r3: map<Id, seq<Cell>>, ids: set<Id>,
                       sweep: Sweep, now: Nanos)
    requires Extends(r0, r1) && Extends(r1, r2) && Extends(r2, r3) && WereSeen(r1, r2, ids, sweep, now)
    ensures WereSeen(r0, r3, ids, sweep, now)
  {
    hide Eligible;
    forall id | id in ids
      ensures id in r0 && id in r3
      ensures exists i :: |r0[id]| - 1 <= i < |r3[id]| && i >= 0 && r3[id][i].row.Some? && Eligible(sweep, r3[id][i].row.value, now)
    {
      var i :| |r1[id]| - 1 <= i < |r2[id]| && i >= 0 && r2[id][i].row.Some? && Eligible(sweep, r2[id][i].row.value, now);
      assert r3[id][i] == r3[id][..|r2[id]|][i];
    }
  }

  lemma FirstIdsTasked(before: map<Id, Cell>, cells: map<Id, Cell>, found: seq<Found>, k: nat)
    requires Tasked(before, cells, IdsOf(found), k) && k <= |found|
    ensures AllTasked(before, cells, FirstIds(found, k))
  {
    hide Tasked, AllTasked;
    FirstTasked(before, cells, IdsOf(found), k);
  }

  /** The SELECT of a sweep: `me` holds the rows found, none of them handled yet. */
  method Find(w: World, me: ActorId, now: Nanos, sweep: Sweep) returns (found: seq<Found>, err: Error)
    requires w.Valid() && Idle(me, w.cells)
    modifies w
    ensures w.Valid() && Extends(old(w.runs), w.runs) && w.cells.Keys == old(w.cells).Keys
    ensures Unrepeated(IdsOf(found)) && |found| <= RECONCILER_BATCH_SIZE && (w.reliable ==> err.Nil?) && (!err.Nil? ==> found == [])
    ensures forall k | 0 <= k < |found| :: found[k].row.status == Target(sweep)
    ensures Tasked(old(w.cells), w.cells, IdsOf(found), 0)
    ensures AllSeen(old(w.runs), w.runs, found, sweep, now)
    ensures Progress(me, w.cells, found, 0, sweep, now)
    ensures RequeueCountedBy(w.cells, me) == old(RequeueCountedBy(w.cells, me))
    ensures StuckCountedBy(w.cells, me) == old(StuckCountedBy(w.cells, me))
    ensures w.alone && err.Nil? ==>
              RowsSoFar(old(TableOf(w.cells)), w.cells, found, 0, sweep, now)
              && IsSelection(old(TableOf(w.cells)), sweep, now, RECONCILER_BATCH_SIZE, IdsOf(found))
  {
    hide IsRun, Apply, Extends, World.Valid, Idle, Progress, RowsSoFar, IsSelection, StuckCountedBy, RequeueCountedBy, TableOf, SameCounted, AfterSelect, Seen, Eligible, RunsEnd, Tasked;
    EachRunEnds(w);
    found, err := w.Select(sweep, me, now, RECONCILER_BATCH_SIZE);
    TaskedSince(w, old(w.runs), old(w.cells), IdsOf(found));
    CountedSame(me, old(w.cells), w.cells);
    ProgressStarts(me, w.cells, found, sweep, now);
    if w.alone {
      RowsStart(w.cells, found, sweep, now);
    }
  }

  /** One iteration of the loop over the rows selected by the orphaned-pending sweep. */
  method RequeueOne(w: World, me: ActorId, found: seq<Found>, k: nat, ghost table: Table, now: Nanos) returns (err: Error)
    requires w.Valid() && Unrepeated(IdsOf(found)) && k < |found| && Progress(me, w.cells, found, k, OrphanedPending, now)
    requires found[k].row.status == Target(OrphanedPending)
    requires RequeueCountedBy(w.cells, me) == FirstIds(found, k)
    requires w.alone ==> RowsSoFar(table, w.cells, found, k, OrphanedPending, now)
    modifies w
    ensures w.Valid() && Extends(old(w.runs), w.runs) && w.cells.Keys == old(w.cells).Keys
    ensures RequeueCountedBy(w.cells, me) == FirstIds(found, if err.Nil? then k + 1 else k)
    ensures StuckCountedBy(w.cells, me) == old(StuckCountedBy(w.cells, me))
    ensures Elsewhere(found[k].id, me, w.alone, old(w.cells), w.cells) && found[k].id in old(w.cells)
    ensures err.Nil? ==> w.cells[found[k].id].h.tasks > old(w.cells)[found[k].id].h.tasks
    ensures err.Nil? ==> Progress(me, w.cells, found, k + 1, OrphanedPending, now)
    ensures w.alone && err.Nil? ==> RowsSoFar(table, w.cells, found, k + 1, OrphanedPending, now)
    ensures w.alone && w.reliable ==> err.Nil?
  {
    hide IsRun, Apply, Extends, Elsewhere, World.Valid, Progress, RowsSoFar, StuckCountedBy, RequeueCountedBy, FirstIds, Landed, Carries, Unrepeated, SameFor, World.At, Handled, Moved, MarkedFailed, Written, IdsOf;
    ghost var id, before := found[k].id, w.cells;
    HeldNow(me, w.cells, found, k, OrphanedPending, now);
    AtNow(w, id, me, AfterSelect(OrphanedPending, found[k].row, now));
    if w.alone {
      RowNow(table, w.cells, found, k, OrphanedPending, now);
    }
    HandledRows(found[k].row, now);
    var n := new Notification(found[k].row);
    err := HandleOrphanedPending(w, found[k].id, me, n, now);
    StoppedNow(w, id, me, err);
    RequeueCountedNext(me, w.alone, before, w.cells, found, k, err.Nil?);
    if err.Nil? {
      ProgressStep(me, w.alone, before, w.cells, found, k, OrphanedPending, now);
      if w.alone {
        RowsStep(table, me, before, w.cells, found, k, OrphanedPending, now);
      }
    }
  }

  method SweepOrphanedPending(w: World, me: ActorId, now: Nanos, out: Output) returns (err: Error, ghost ids: seq<Id>)
    requires w.Valid() && Idle(me, w.cells) && RequeueCountedBy(w.cells, me) == {}
    modifies w, out`orphanedPendingReenqueued
    ensures w.Valid() && Extends(old(w.runs), w.runs) && w.cells.Keys == old(w.cells).Keys
    ensures out.orphanedPendingReenqueued == old(out.orphanedPendingReenqueued) + |RequeueCountedBy(w.cells, me)|
    ensures StuckCountedBy(w.cells, me) == old(StuckCountedBy(w.cells, me))
    ensures WereSeen(old(w.runs), w.runs, RequeueCountedBy(w.cells, me), OrphanedPending, now)
    ensures AllTasked(old(w.cells), w.cells, RequeueCountedBy(w.cells, me))
    ensures err.Nil? ==> Idle(me, w.cells) && |RequeueCountedBy(w.cells, me)| == |ids|
    ensures w.alone && err.Nil? ==> SweptSelection(old(TableOf(w.cells)), TableOf(w.cells), OrphanedPending, ids, now)
    ensures w.alone && w.reliable ==> err.Nil?
  {
    hide IsRun, Apply, Extends, World.Valid, Idle, Progress, RowsSoFar, IsSelection, StuckCountedBy, RequeueCountedBy, FirstIds, TableOf, Swept, Unrepeated, AllSeen, WereSeen, Tasked, AllTasked, Elsewhere, AfterSelect, SameFor, SetOf, World.At;
    ghost var table := TableOf(w.cells);
    var found;
    found, err := Find(w, me, now, OrphanedPending);
    ids := IdsOf(found);
    NoneTasked(old(w.cells), w.cells);
    NoneWereSeen(old(w.runs), w.runs, OrphanedPending, now);
    if !err.Nil? {
      return;
    }
    FirstIdsCount(found, 0);
    FirstWereSeen(old(w.runs), w.runs, found, 0, OrphanedPending, now);
    var k := 0;
    while k < |found|
      invariant 0 <= k <= |found| && w.Valid() && Extends(old(w.runs), w.runs) && w.cells.Keys == old(w.cells).Keys
      invariant Progress(me, w.cells, found, k, OrphanedPending, now)
      invariant RequeueCountedBy(w.cells, me) == FirstIds(found, k) && StuckCountedBy(w.cells, me) == old(StuckCountedBy(w.cells, me))
      invariant out.orphanedPendingReenqueued == old(out.orphanedPendingReenqueued) + k
      invariant w.alone ==> RowsSoFar(table, w.cells, found, k, OrphanedPending, now)
      invariant Tasked(old(w.cells), w.cells, ids, k)
      invariant err.Nil? && AllSeen(old(w.runs), w.runs, found, OrphanedPending, now)
    {
      FirstIdsCount(found, k);
      HeldNow(me, w.cells, found, k, OrphanedPending, now);
      LastCell(w, found[k].id);
      label handling:
      err := RequeueOne(w, me, found, k, table, now);
      SignalsKept(w, found[k].id, old@handling(w.runs), old@handling(w.cells)[found[k].id]);
      TaskedStep(old(w.cells), old@handling(w.cells), w.cells, ids, k, me, w.alone, err.Nil?);
      FirstIdsTasked(old(w.cells), w.cells, found, if err.Nil? then k + 1 else k);
      AllSeenStill(old(w.runs), old@handling(w.runs), w.runs, found, OrphanedPending, now);
      FirstWereSeen(old(w.runs), w.runs, found, if err.Nil? then k + 1 else k, OrphanedPending, now);
      ExtendsTransitively(old(w.runs), old@handling(w.runs), w.runs);
      if !err.Nil? {
        return;
      }
      out.orphanedPendingReenqueued := out.orphanedPendingReenqueued + 1;
      k := k + 1;
    }
    FirstWereSeen(old(w.runs), w.runs, found, k, OrphanedPending, now);
    FirstIdsTasked(old(w.cells), w.cells, found, k);
    ProgressEnds(me, w.cells, found, OrphanedPending, now);
    FirstIdsCount(found, k);
    if w.alone {
      RowsEnd(table, w.cells, found, OrphanedPending, now);
    }
  }

  /** One iteration of the loop over the rows selected by the stuck-processing sweep. */
  method TimeOutOne(w: World, me: ActorId, found: seq<Found>, k: nat, ghost table: Table, now: Nanos) returns (err: Error)
    requires w.Valid() && Unrepeated(IdsOf(found)) && k < |found| && Progress(me, w.cells, found, k, StuckProcessing, now)
    requires found[k].row.status == Target(StuckProcessing)
    requires StuckCountedBy(w.cells, me) == FirstIds(found, k)
    requires w.alone ==> RowsSoFar(table, w.cells, found, k, StuckProcessing, now)
    modifies w
    ensures w.Valid() && Extends(old(w.runs), w.runs) && w.cells.Keys == old(w.cells).Keys
    ensures StuckCountedBy(w.cells, me) == FirstIds(found, if err.Nil? then k + 1 else k)
    ensures RequeueCountedBy(w.cells, me) == old(RequeueCountedBy(w.cells, me))
    ensures err.Nil? ==> Progress(me, w.cells, found, k + 1, StuckProcessing, now)
    ensures w.alone && err.Nil? ==> RowsSoFar(table, w.cells, found, k + 1, StuckProcessing, now)
    ensures w.alone && w.reliable ==> err.Nil?
  {
    hide IsRun, Apply, Extends, Elsewhere, World.Valid, Progress, RowsSoFar, StuckCountedBy, RequeueCountedBy, FirstIds, Landed, Carries, Unrepeated, SameFor, World.At, Handled, Moved, MarkedFailed, Written, IdsOf;
    ghost var id, before := found[k].id, w.cells;
    HeldNow(me, w.cells, found, k, StuckProcessing, now);
    AtNow(w, id, me, AfterSelect(StuckProcessing, found[k].row, now));
    if w.alone {
      RowNow(table, w.cells, found, k, StuckProcessing, now);
    }
    HandledRows(found[k].row, now);
    var n := new Notification(found[k].row);
    err := HandleStuckProcessing(w, found[k].id, me, n, now);
    StoppedNow(w, id, me, err);
    StuckCountedNext(me, w.alone, before, w.cells, found, k, err.Nil?);
    if err.Nil? {
      ProgressStep(me, w.alone, before, w.cells, found, k, StuckProcessing, now);
      if w.alone {
        RowsStep(table, me, before, w.cells, found, k, StuckProcessing, now);
      }
    }
  }

  method SweepStuckProcessing(w: World, me: ActorId, now: Nanos, out: Output) returns (err: Error, ghost ids: seq<Id>)
    requires w.Valid() && Idle(me, w.cells) && StuckCountedBy(w.cells, me) == {}
    modifies w, out`stuckProcessingFailed
    ensures w.Valid() && Extends(old(w.runs), w.runs) && w.cells.Keys == old(w.cells).Keys
    ensures out.stuckProcessingFailed == old(out.stuckProcessingFailed) + |StuckCountedBy(w.cells, me)|
    ensures RequeueCountedBy(w.cells, me) == old(RequeueCountedBy(w.cells, me))
    ensures WereSeen(old(w.runs), w.runs, StuckCountedBy(w.cells, me), StuckProcessing, now)
    ensures err.Nil? ==> Idle(me, w.cells) && |StuckCountedBy(w.cells, me)| == |ids|
    ensures w.alone && err.Nil? ==> SweptSelection(old(TableOf(w.cells)), TableOf(w.cells), StuckProcessing, ids, now)
    ensures w.alone && w.reliable ==> err.Nil?
  {
    hide IsRun, Apply, Extends, World.Valid, Idle, Progress, RowsSoFar, IsSelection, StuckCountedBy, RequeueCountedBy, FirstIds, TableOf, Swept, Unrepeated, AllSeen, WereSeen;
    ghost var table := TableOf(w.cells);
    var found;
    found, err := Find(w, me, now, StuckProcessing);
    ids := IdsOf(found);
    NoneWereSeen(old(w.runs), w.runs, StuckProcessing, now);
    if !err.Nil? {
      return;
    }
    FirstIdsCount(found, 0);
    FirstWereSeen(old(w.runs), w.runs, found, 0, StuckProcessing, now);
    var k := 0;
    while k < |found|
      invariant 0 <= k <= |found| && w.Valid() && Extends(old(w.runs), w.runs) && w.cells.Keys == old(w.cells).Keys
      invariant Progress(me, w.cells, found, k, StuckProcessing, now)
      invariant StuckCountedBy(w.cells, me) == FirstIds(found, k) && RequeueCountedBy(w.cells, me) == old(RequeueCountedBy(w.cells, me))
      invariant out.stuckProcessingFailed == old(out.stuckProcessingFailed) + k
      invariant w.alone ==> RowsSoFar(table, w.cells, found, k, StuckProcessing, now)
      invariant err.Nil? && AllSeen(old(w.runs), w.runs, found, StuckProcessing, now)
    {
      FirstIdsCount(found, k);
      label handling:
      err := TimeOutOne(w, me, found, k, table, now);
      AllSeenStill(old(w.runs), old@handling(w.runs), w.runs, found, StuckProcessing, now);
      FirstWereSeen(old(w.runs), w.runs, found, if err.Nil? then k + 1 else k, StuckProcessing, now);
      ExtendsTransitively(old(w.runs), old@handling(w.runs), w.runs);
      if !err.Nil? {
        return;
      }
      out.stuckProcessingFailed := out.stuckProcessingFailed + 1;
      k := k + 1;
    }
    FirstWereSeen(old(w.runs), w.runs, found, k, StuckProcessing, now);
    ProgressEnds(me, w.cells, found, StuckProcessing, now);
    FirstIdsCount(found, k);
    if w.alone {
      RowsEnd(table, w.cells, found, StuckProcessing, now);
    }
  }

  /** One iteration of the loop over the rows selected by either of the other two sweeps. */
  method ReenqueueOne(w: World, me: ActorId, found: seq<Found>, k: nat, ghost table: Table, sweep: Sweep, now: Nanos)
    returns (err: Error)
    requires sweep.OverdueRetrying? || sweep.StuckQueued?
    requires w.Valid() && Unrepeated(IdsOf(found)) && k < |found| && Progress(me, w.cells, found, k, sweep, now)
    requires w.alone ==> RowsSoFar(table, w.cells, found, k, sweep, now)
    modifies w
    ensures w.Valid() && Extends(old(w.runs), w.runs) && w.cells.Keys == old(w.cells).Keys
    ensures RequeueCountedBy(w.cells, me) == old(RequeueCountedBy(w.cells, me))
    ensures StuckCountedBy(w.cells, me) == old(StuckCountedBy(w.cells, me))
    ensures Elsewhere(found[k].id, me, w.alone, old(w.cells), w.cells) && found[k].id in old(w.cells)
    ensures err.Nil? ==> w.cells[found[k].id].h.tasks > old(w.cells)[found[k].id].h.tasks
    ensures err.Nil? ==> Progress(me, w.cells, found, k + 1, sweep, now)
    ensures w.alone && err.Nil? ==> RowsSoFar(table, w.cells, found, k + 1, sweep, now)
    ensures w.reliable ==> err.Nil?
  {
    hide IsRun, Apply, Extends, Elsewhere, World.Valid, Progress, RowsSoFar, StuckCountedBy, RequeueCountedBy, FirstIds, Landed, Carries, Unrepeated, SameFor, World.At, Handled, Moved, MarkedFailed, Written, IdsOf;
    ghost var id, before := found[k].id, w.cells;
    HeldNow(me, w.cells, found, k, sweep, now);
    AtNow(w, id, me, Reenqueuing);
    if w.alone {
      RowNow(table, w.cells, found, k, sweep, now);
    }
    HandledRows(found[k].row, now);
    err := HandleReenqueue(w, found[k].id, me);
    StoppedNow(w, id, me, err);
    ElsewhereKeys(id, me, w.alone, before, w.cells);
    CountedElsewhere(id, me, w.alone, before, w.cells);
    if err.Nil? {
      ProgressStep(me, w.alone, before, w.cells, found, k, sweep, now);
      if w.alone {
        RowsStep(table, me, before, w.cells, found, k, sweep, now);
      }
    }
  }

  method SweepReenqueue(w: World, me: ActorId, now: Nanos, sweep: Sweep) returns (err: Error, count: nat, ghost ids: seq<Id>)
    requires sweep.OverdueRetrying? || sweep.StuckQueued?
    requires w.Valid() && Idle(me, w.cells)
    modifies w
    ensures w.Valid() && Extends(old(w.runs), w.runs) && w.cells.Keys == old(w.cells).Keys
    ensures RequeueCountedBy(w.cells, me) == old(RequeueCountedBy(w.cells, me))
    ensures StuckCountedBy(w.cells, me) == old(StuckCountedBy(w.cells, me))
    ensures count <= |ids| <= RECONCILER_BATCH_SIZE && (err.Nil? ==> Idle(me, w.cells) && count == |ids|)
    ensures Unrepeated(ids) && AllTasked(old(w.cells), w.cells, SetOf(ids[..count]))
    ensures w.alone && err.Nil? ==> SweptSelection(old(TableOf(w.cells)), TableOf(w.cells), sweep, ids, now)
    ensures w.reliable ==> err.Nil?
  {
    hide IsRun, Apply, Extends, World.Valid, Idle, Progress, RowsSoFar, IsSelection, StuckCountedBy, RequeueCountedBy, FirstIds, TableOf, Swept, Unrepeated, Tasked, AllTasked, Elsewhere, AllSeen, SetOf;
    ghost var table := TableOf(w.cells);
    count := 0;
    var found;
    found, err := Find(w, me, now, sweep);
    ids := IdsOf(found);
    FirstTasked(old(w.cells), w.cells, ids, 0);
    if !err.Nil? {
      return;
    }
    while count < |found|
      invariant 0 <= count <= |found| && w.Valid() && Extends(old(w.runs), w.runs) && w.cells.Keys == old(w.cells).Keys
      invariant Progress(me, w.cells, found, count, sweep, now)
      invariant RequeueCountedBy(w.cells, me) == old(RequeueCountedBy(w.cells, me))
      invariant StuckCountedBy(w.cells, me) == old(StuckCountedBy(w.cells, me))
      invariant w.alone ==> RowsSoFar(table, w.cells, found, count, sweep, now)
      invariant err.Nil? && Tasked(old(w.cells), w.cells, ids, count)
    {
      HeldNow(me, w.cells, found, count, sweep, now);
      LastCell(w, found[count].id);
      label handling:
      err := ReenqueueOne(w, me, found, count, table, sweep, now);
      SignalsKept(w, found[count].id, old@handling(w.runs), old@handling(w.cells)[found[count].id]);
      TaskedStep(old(w.cells), old@handling(w.cells), w.cells, ids, count, me, w.alone, err.Nil?);
      FirstTasked(old(w.cells), w.cells, ids, if err.Nil? then count + 1 else count);
      ExtendsTransitively(old(w.runs), old@handling(w.runs), w.runs);
      if !err.Nil? {
        return;
      }
      count := count + 1;
    }
    FirstTasked(old(w.cells), w.cells, ids, count);
    ProgressEnds(me, w.cells, found, sweep, now);
    if w.alone {
      RowsEnd(table, w.cells, found, sweep, now);
    }
  }

  lemma ReenqueueKeepsTable(table: Table, table': Table, sweep: Sweep, ids: seq<Id>, now: Nanos)
    requires sweep.OverdueRetrying? || sweep.StuckQueued?
    requires SweptSelection(table, table', sweep, ids, now)
    ensures table' == table
  {
  }

  /**
   * What one pass does when nobody interferes: the orphaned-pending sweep of `table`, the
   * stuck-processing sweep of what that leaves, and nothing else.
   */
  ghost predicate Passed(table: Table, table': Table, orphans: seq<Id>, stuck: seq<Id>, now: Nanos) {
    var between := Swept(table, OrphanedPending, orphans, now);
    SweptSelection(table, between, OrphanedPending, orphans, now) && SweptSelection(between, table', StuckProcessing, stuck, now)
  }

  lemma SelectionSize(table: Table, sweep: Sweep, now: Nanos, ids: seq<Id>)
    requires IsSelection(table, sweep, now, RECONCILER_BATCH_SIZE, ids)
    ensures |ids| == Min(100, |EligibleIds(table, sweep, now)|)
  {
    var eligible := EligibleIds(table, sweep, now);
    SetOfSize(ids);
    forall id | id in SetOf(ids)
      ensures id in eligible
    {
      var k :| 0 <= k < |ids| && ids[k] == id;
      assert ids[k] in EligibleIds(table, sweep, now);
    }
    SubsetSize(SetOf(ids), eligible);
    if |ids| < 100 {
      assert forall id | id in eligible :: id in ids;
      assert SetOf(ids) == eligible;
    }
  }

  lemma SelectedOldest(table: Table, sweep: Sweep, now: Nanos, ids: seq<Id>)
    requires IsSelection(table, sweep, now, RECONCILER_BATCH_SIZE, ids)
    ensures forall id | id in ids :: id in table && Eligible(sweep, table[id], now)
    ensures forall id, other | id in ids && other in table && other !in ids && Eligible(sweep, table[other], now) ::
              SortKey(sweep, table[id]) <= SortKey(sweep, table[other])
  {
    forall id | id in ids
      ensures id in EligibleIds(table, sweep, now)
      ensures forall other | other in EligibleIds(table, sweep, now) && other !in ids :: SortKey(sweep, table[id]) <= SortKey(sweep, table[other])
    {
      var k :| 0 <= k < |ids| && ids[k] == id;
    }
  }

  /** The rows of a pass: which it may take, what it makes of them, and that it leaves no older one out. */
  lemma PassMeans(table: Table, table': Table, orphans: seq<Id>, stuck: seq<Id>, now: Nanos)
    requires Passed(table, table', orphans, stuck, now)
    ensures forall id | id in orphans :: id in table && table[id].status == Pending && table[id].createdAt + 300_000_000_000 < now
    ensures forall id | id in stuck :: id in table && table[id].status == Processing && table[id].updatedAt + 300_000_000_000 < now
    ensures forall id, other | id in orphans && other in table && other !in orphans && table[other].status == Pending ::
              table[other].createdAt + 300_000_000_000 >= now || table[id].createdAt <= table[other].createdAt
    ensures forall id, other | id in stuck && other in table && other !in stuck && table[other].status == Processing ::
              table[other].updatedAt + 300_000_000_000 >= now || table[id].updatedAt <= table[other].updatedAt
    ensures table'.Keys == table.Keys
    ensures forall id | id in table ::
              var r := table[id];
              table'[id] == if id in orphans then Row(Queued, r.attempts, r.lastError, r.nextRetryAt, r.scheduledAt, r.createdAt, now)
                            else if id in stuck
                            then Row(Failed, r.attempts, "worker_timeout", r.nextRetryAt, r.scheduledAt, r.createdAt, now)
                            else r
  {
    var between := Swept(table, OrphanedPending, orphans, now);
    SelectedOldest(table, OrphanedPending, now, orphans);
    SelectedOldest(between, StuckProcessing, now, stuck);
    hide IsSelection;
    forall id | id in table
      ensures id in between && (between[id].status == Processing <==> table[id].status == Processing)
      ensures between[id].status == Processing ==> between[id] == table[id]
    {
    }
  }

  /** The first sweep of a pass leaves the second one's rows as they are. */
  lemma FirstSweepKeepsStuck(table: Table, between: Table, orphans: seq<Id>, now: Nanos)
    requires SweptSelection(table, between, OrphanedPending, orphans, now)
    ensures EligibleIds(between, StuckProcessing, now) == EligibleIds(table, StuckProcessing, now)
  {
    forall id | id in table
      ensures id in between && (Eligible(StuckProcessing, between[id], now) <==> Eligible(StuckProcessing, table[id], now))
    {
      if id in orphans {
        var k :| 0 <= k < |orphans| && orphans[k] == id;
        assert orphans[k] in EligibleIds(table, OrphanedPending, now);
      }
    }
  }

  /** What a pass makes of its rows is nothing for the two sweeps after it. */
  lemma PassKeepsOthers(table: Table, table': Table, orphans: seq<Id>, stuck: seq<Id>, now: Nanos)
    requires Passed(table, table', orphans, stuck, now)
    ensures EligibleIds(table', OverdueRetrying, now) == EligibleIds(table, OverdueRetrying, now)
    ensures EligibleIds(table', StuckQueued, now) == EligibleIds(table, StuckQueued, now)
  {
    PassMeans(table, table', orphans, stuck, now);
    hide Passed;
    forall id | id in table
      ensures Eligible(OverdueRetrying, table'[id], now) <==> Eligible(OverdueRetrying, table[id], now)
      ensures Eligible(StuckQueued, table'[id], now) <==> Eligible(StuckQueued, table[id], now)
    {
    }
  }

  /** The four counters of a pass, by the rows that it found. */
  lemma PassCounts(table: Table, table': Table, orphans: seq<Id>, stuck: seq<Id>, overdue: seq<Id>, queued: seq<Id>, now: Nanos)
    requires Passed(table, table', orphans, stuck, now)
    requires IsSelection(table', OverdueRetrying, now, RECONCILER_BATCH_SIZE, overdue)
    requires IsSelection(table', StuckQueued, now, RECONCILER_BATCH_SIZE, queued)
    ensures |orphans| == Min(100, |EligibleIds(table, OrphanedPending, now)|)
    ensures |stuck| == Min(100, |EligibleIds(table, StuckProcessing, now)|)
    ensures |overdue| == Min(100, |EligibleIds(table, OverdueRetrying, now)|)
    ensures |queued| == Min(100, |EligibleIds(table, StuckQueued, now)|)
  {
    var between := Swept(table, OrphanedPending, orphans, now);
    assert SweptSelection(table, between, OrphanedPending, orphans, now);
    assert IsSelection(between, StuckProcessing, now, RECONCILER_BATCH_SIZE, stuck);
    hide IsSelection, Passed, Swept, EligibleIds, SweptSelection;
    SelectionSize(table, OrphanedPending, now, orphans);
    SelectionSize(between, StuckProcessing, now, stuck);
    SelectionSize(table', OverdueRetrying, now, overdue);
    SelectionSize(table', StuckQueued, now, queued);
    FirstSweepKeepsStuck(table, between, orphans, now);
    PassKeepsOthers(table, table', orphans, stuck, now);
  }

  lemma EligibleCells(cells: map<Id, Cell>, now: Nanos)
    ensures EligibleIds(TableOf(cells), OrphanedPending, now) ==
            set id | id in cells && cells[id].row.Some? && cells[id].row.value.status == Pending
                     && cells[id].row.value.createdAt + 300_000_000_000 < now
    ensures EligibleIds(TableOf(cells), StuckProcessing, now) ==
            set id | id in cells && cells[id].row.Some? && cells[id].row.value.status == Processing
                     && cells[id].row.value.updatedAt + 300_000_000_000 < now
    ensures EligibleIds(TableOf(cells), OverdueRetrying, now) ==
            set id | id in cells && cells[id].row.Some? && cells[id].row.value.status == Retrying
                     && cells[id].row.value.nextRetryAt.Some? && cells[id].row.value.nextRetryAt.value + 600_000_000_000 < now
    ensures EligibleIds(TableOf(cells), StuckQueued, now) ==
            set id | id in cells && cells[id].row.Some? && cells[id].row.value.status == Queued
                     && cells[id].row.value.updatedAt + 300_000_000_000 < now
                     && (cells[id].row.value.scheduledAt.Some? ==> cells[id].row.value.scheduledAt.value + 300_000_000_000 < now)
  {
  }

  lemma PassOnCells(before: map<Id, Cell>, after: map<Id, Cell>, orphans: seq<Id>, stuck: seq<Id>, now: Nanos)
    requires after.Keys == before.Keys && Passed(TableOf(before), TableOf(after), orphans, stuck, now)
    ensures forall id | id in after ::
              after[id].row == if before[id].row.None? then None
                               else var r := before[id].row.value;
                                    if id in orphans
                                    then Some(Row(Queued, r.attempts, r.lastError, r.nextRetryAt, r.scheduledAt, r.createdAt, now))
                                    else if id in stuck
                                    then Some(Row(Failed, r.attempts, "worker_timeout", r.nextRetryAt, r.scheduledAt, r.createdAt, now))
                                    else Some(r)
    ensures forall id | id in orphans ::
              && id in before && before[id].row.Some? && before[id].row.value.status == Pending
              && before[id].row.value.createdAt + 300_000_000_000 < now
    ensures forall id | id in stuck ::
              && id in before && before[id].row.Some? && before[id].row.value.status == Processing
              && before[id].row.value.updatedAt + 300_000_000_000 < now
  {
    PassMeans(TableOf(before), TableOf(after), orphans, stuck, now);
    hide Passed;
    forall id | id in after
      ensures id in TableOf(after) <==> after[id].row.Some?
      ensures id in TableOf(before) <==> before[id].row.Some?
    {
    }
  }

  /** The four sweeps in order, up to the first error. */
  method SweepAll(w: World, me: ActorId, now: Nanos, out: Output)
    returns (err: Error, ghost orphans: seq<Id>, ghost stuck: seq<Id>, ghost overdue: seq<Id>, ghost queued: seq<Id>)
    requires w.Valid() && Idle(me, w.cells) && StuckCountedBy(w.cells, me) == RequeueCountedBy(w.cells, me) == {}
    requires out.orphanedPendingReenqueued == out.stuckProcessingFailed == out.overdueRetryingReenqueued == out.stuckQueuedReenqueued == 0
    modifies w, out
    ensures w.Valid() && Extends(old(w.runs), w.runs) && w.cells.Keys == old(w.cells).Keys
    ensures WereSeen(old(w.runs), w.runs, RequeueCountedBy(w.cells, me), OrphanedPending, now)
    ensures WereSeen(old(w.runs), w.runs, StuckCountedBy(w.cells, me), StuckProcessing, now)
    ensures AllTasked(old(w.cells), w.cells, RequeueCountedBy(w.cells, me))
    ensures err.Nil? ==>
              && Unrepeated(overdue) && Unrepeated(queued)
              && AllTasked(old(w.cells), w.cells, SetOf(overdue)) && AllTasked(old(w.cells), w.cells, SetOf(queued))
              && out.overdueRetryingReenqueued == |overdue| && out.stuckQueuedReenqueued == |queued|
    ensures out.stuckProcessingFailed == |StuckCountedBy(w.cells, me)|
    ensures out.orphanedPendingReenqueued == |RequeueCountedBy(w.cells, me)|
    ensures w.alone && err.Nil? ==>
              && Passed(old(TableOf(w.cells)), TableOf(w.cells), orphans, stuck, now)
              && IsSelection(TableOf(w.cells), OverdueRetrying, now, RECONCILER_BATCH_SIZE, overdue)
              && IsSelection(TableOf(w.cells), StuckQueued, now, RECONCILER_BATCH_SIZE, queued)
              && out.orphanedPendingReenqueued == |orphans| && out.stuckProcessingFailed == |stuck|
              && out.overdueRetryingReenqueued == |overdue| && out.stuckQueuedReenqueued == |queued|
    ensures w.alone && w.reliable ==> err.Nil?
  {
    hide IsRun, Apply, Extends, World.Valid, Idle, StuckCountedBy, RequeueCountedBy, TableOf, Swept, IsSelection, WereSeen, AllTasked, SetOf, Unrepeated, RunsEnd;
    stuck, overdue, queued := [], [], [];
    EachRunEnds(w);
    ExtendsItself(w.runs);
    err, orphans := SweepOrphanedPending(w, me, now, out);
    NoneWereSeen(old(w.runs), w.runs, StuckProcessing, now);
    if !err.Nil? {
      return;
    }
    EachRunEnds(w);
    label first:
    err, stuck := SweepStuckProcessing(w, me, now, out);
    ExtendsTransitively(old(w.runs), old@first(w.runs), w.runs);
    ExtendsItself(w.runs);
    TaskedThroughout(w, old(w.runs), old(w.cells), old(w.runs), old(w.cells), old@first(w.runs), old@first(w.cells), RequeueCountedBy(w.cells, me));
    SeenThroughout(old(w.runs), old(w.runs), old@first(w.runs), w.runs, RequeueCountedBy(w.cells, me), OrphanedPending, now);
    SeenThroughout(old(w.runs), old@first(w.runs), w.runs, w.runs, StuckCountedBy(w.cells, me), StuckProcessing, now);
    if !err.Nil? {
      return;
    }
    EachRunEnds(w);
    label second:
    err, out.overdueRetryingReenqueued, overdue := SweepReenqueue(w, me, now, OverdueRetrying);
    TaskedThroughout(w, old(w.runs), old(w.cells), old(w.runs), old(w.cells), old@second(w.runs), old@second(w.cells), RequeueCountedBy(w.cells, me));
    SeenThroughout(old(w.runs), old(w.runs), old@second(w.runs), w.runs, RequeueCountedBy(w.cells, me), OrphanedPending, now);
    SeenThroughout(old(w.runs), old(w.runs), old@second(w.runs), w.runs, StuckCountedBy(w.cells, me), StuckProcessing, now);
    ExtendsTransitively(old(w.runs), old@second(w.runs), w.runs);
    if !err.Nil? {
      return;
    }
    if w.alone {
      ReenqueueKeepsTable(old@second(TableOf(w.cells)), TableOf(w.cells), OverdueRetrying, overdue, now);
    }
    EachRunEnds(w);
    label third:
    err, out.stuckQueuedReenqueued, queued := SweepReenqueue(w, me, now, StuckQueued);
    TaskedThroughout(w, old(w.runs), old(w.cells), old(w.runs), old(w.cells), old@third(w.runs), old@third(w.cells), RequeueCountedBy(w.cells, me));
    SeenThroughout(old(w.runs), old(w.runs), old@third(w.runs), w.runs, RequeueCountedBy(w.cells, me), OrphanedPending, now);
    SeenThroughout(old(w.runs), old(w.runs), old@third(w.runs), w.runs, StuckCountedBy(w.cells, me), StuckProcessing, now);
    ExtendsTransitively(old(w.runs), old@third(w.runs), w.runs);
    if err.Nil? {
      EachRunEnds(w);
      ExtendsItself(w.runs);
      assert overdue[..|overdue|] == overdue && queued[..|queued|] == queued;
      ExtendsTransitively(old(w.runs), old@second(w.runs), old@third(w.runs));
      TaskedThroughout(w, old(w.runs), old(w.cells), old@second(w.runs), old@second(w.cells), old@third(w.runs), old@third(w.cells), SetOf(overdue));
      TaskedThroughout(w, old(w.runs), old(w.cells), old@third(w.runs), old@third(w.cells), w.runs, w.cells, SetOf(queued));
    }
    if w.alone && err.Nil? {
      ReenqueueKeepsTable(old@third(TableOf(w.cells)), TableOf(w.cells), StuckQueued, queued, now);
    }
  }

  lemma TaskedIds(before: map<Id, Cell>, cells: map<Id, Cell>, ids: set<Id>)
    requires AllTasked(before, cells, ids)
    ensures forall id | id in ids :: id in before && id in cells && cells[id].h.tasks > before[id].h.tasks
  {
  }

  lemma TaskedList(before: map<Id, Cell>, cells: map<Id, Cell>, ids: seq<Id>)
    requires AllTasked(before, cells, SetOf(ids))
    ensures forall id | id in ids :: id in before && id in cells && cells[id].h.tasks > before[id].h.tasks
  {
    assert forall id | id in ids :: id in SetOf(ids);
  }

  lemma ReenqueuedCells(cells: map<Id, Cell>, overdue: seq<Id>, queued: seq<Id>, now: Nanos)
    requires IsSelection(TableOf(cells), OverdueRetrying, now, RECONCILER_BATCH_SIZE, overdue)
    requires IsSelection(TableOf(cells), StuckQueued, now, RECONCILER_BATCH_SIZE, queued)
    ensures forall id | id in overdue ::
              && id in cells && cells[id].row.Some? && cells[id].row.value.status == Retrying
              && cells[id].row.value.nextRetryAt.Some? && cells[id].row.value.nextRetryAt.value + 600_000_000_000 < now
    ensures forall id | id in queued ::
              && id in cells && cells[id].row.Some? && cells[id].row.value.status == Queued
              && cells[id].row.value.updatedAt + 300_000_000_000 < now
  {
    SelectedOldest(TableOf(cells), OverdueRetrying, now, overdue);
    SelectedOldest(TableOf(cells), StuckQueued, now, queued);
    hide IsSelection;
  }

  lemma SeenMeans(before: map<Id, seq<Cell>>, after: map<Id, seq<Cell>>, orphans: set<Id>, stuck: set<Id>, now: Nanos)
    requires WereSeen(before, after, orphans, OrphanedPending, now) && WereSeen(before, after, stuck, StuckProcessing, now)
    ensures forall id | id in orphans ::
              && id in before && id in after
              && exists i :: |before[id]| - 1 <= i < |after[id]| && i >= 0 && after[id][i].row.Some? &&
                   var r := after[id][i].row.value; r.status == Pending && r.createdAt + 300_000_000_000 < now
    ensures forall id | id in stuck ::
              && id in before && id in after
              && exists i :: |before[id]| - 1 <= i < |after[id]| && i >= 0 && after[id][i].row.Some? &&
                   var r := after[id][i].row.value; r.status == Processing && r.updatedAt + 300_000_000_000 < now
  {
  }

  /**
   * One pass: the four sweeps in order, up to the first error. Whatever happens meanwhile, its first
   * two counters are the numbers of rows that this pass moved, logged and (for orphans) enqueued.
   */
  method Execute(w: World, me: ActorId, now: Nanos)
    returns (out: Output, err: Error, ghost orphans: seq<Id>, ghost stuck: seq<Id>, ghost overdue: seq<Id>, ghost queued: seq<Id>)
    requires w.Valid() && Idle(me, w.cells) && StuckCountedBy(w.cells, me) == RequeueCountedBy(w.cells, me) == {}
    modifies w
    ensures fresh(out) && w.Valid() && Extends(old(w.runs), w.runs)
    ensures forall id | id in RequeueCountedBy(w.cells, me) ::
              && id in old(w.runs) && id in w.runs
              && exists i :: |old(w.runs)[id]| - 1 <= i < |w.runs[id]| && i >= 0 && w.runs[id][i].row.Some? &&
                   var r := w.runs[id][i].row.value; r.status == Pending && r.createdAt + 300_000_000_000 < now
    ensures forall id | id in StuckCountedBy(w.cells, me) ::
              && id in old(w.runs) && id in w.runs
              && exists i :: |old(w.runs)[id]| - 1 <= i < |w.runs[id]| && i >= 0 && w.runs[id][i].row.Some? &&
                   var r := w.runs[id][i].row.value; r.status == Processing && r.updatedAt + 300_000_000_000 < now
    ensures forall id | id in RequeueCountedBy(w.cells, me) ::
              id in old(w.cells) && id in w.cells && w.cells[id].h.tasks > old(w.cells)[id].h.tasks
    ensures err.Nil? ==>
              && Unrepeated(overdue) && Unrepeated(queued)
              && out.overdueRetryingReenqueued == |overdue| && out.stuckQueuedReenqueued == |queued|
              && forall id | id in overdue || id in queued ::
                   id in old(w.cells) && id in w.cells && w.cells[id].h.tasks > old(w.cells)[id].h.tasks
    ensures w.alone && err.Nil? ==>
              && (forall id | id in overdue ::
                    && id in w.cells && w.cells[id].row.Some? && w.cells[id].row.value.status == Retrying
                    && w.cells[id].row.value.nextRetryAt.Some? && w.cells[id].row.value.nextRetryAt.value + 600_000_000_000 < now)
              && (forall id | id in queued ::
                    && id in w.cells && w.cells[id].row.Some? && w.cells[id].row.value.status == Queued
                    && w.cells[id].row.value.updatedAt + 300_000_000_000 < now)
    ensures out.stuckProcessingFailed == |StuckCountedBy(w.cells, me)|
    ensures out.orphanedPendingReenqueued == |RequeueCountedBy(w.cells, me)|
    ensures w.cells.Keys == old(w.cells).Keys
    ensures w.alone && err.Nil? ==>
              forall id | id in w.cells ::
                w.cells[id].row == if old(w.cells)[id].row.None? then None
                                   else var r := old(w.cells)[id].row.value;
                                        if id in orphans
                                        then Some(Row(Queued, r.attempts, r.lastError, r.nextRetryAt, r.scheduledAt, r.createdAt, now))
                                        else if id in stuck
                                        then Some(Row(Failed, r.attempts, "worker_timeout", r.nextRetryAt, r.scheduledAt, r.createdAt, now))
                                        else Some(r)
    ensures w.alone && err.Nil? ==>
              forall id | id in orphans ::
                && id in w.cells && old(w.cells)[id].row.Some? && old(w.cells)[id].row.value.status == Pending
                && old(w.cells)[id].row.value.createdAt + 300_000_000_000 < now
    ensures w.alone && err.Nil? ==>
              forall id | id in stuck ::
                && id in w.cells && old(w.cells)[id].row.Some? && old(w.cells)[id].row.value.status == Processing
                && old(w.cells)[id].row.value.updatedAt + 300_000_000_000 < now
    ensures w.alone && err.Nil? ==>
              var cells := old(w.cells);
              && out.orphanedPendingReenqueued ==
                 Min(100, |set id | id in cells && cells[id].row.Some? && cells[id].row.value.status == Pending
                                    && cells[id].row.value.createdAt + 300_000_000_000 < now|)
              && out.stuckProcessingFailed ==
                 Min(100, |set id | id in cells && cells[id].row.Some? && cells[id].row.value.status == Processing
                                    && cells[id].row.value.updatedAt + 300_000_000_000 < now|)
              && out.overdueRetryingReenqueued ==
                 Min(100, |set id | id in cells && cells[id].row.Some? && cells[id].row.value.status == Retrying
                                    && cells[id].row.value.nextRetryAt.Some?
                                    && cells[id].row.value.nextRetryAt.value + 600_000_000_000 < now|)
              && out.stuckQueuedReenqueued ==
                 Min(100, |set id | id in cells && cells[id].row.Some? && cells[id].row.value.status == Queued
                                    && cells[id].row.value.updatedAt + 300_000_000_000 < now
                                    && (cells[id].row.value.scheduledAt.Some? ==>
                                          cells[id].row.value.scheduledAt.value + 300_000_000_000 < now)|)
    ensures w.alone && err.Nil? ==>
              && Passed(old(TableOf(w.cells)), TableOf(w.cells), orphans, stuck, now)
              && out.orphanedPendingReenqueued == |orphans| && out.stuckProcessingFailed == |stuck|
    ensures w.alone && w.reliable ==> err.Nil?
  {
    hide IsRun, Apply, Extends, World.Valid, Idle, StuckCountedBy, RequeueCountedBy, TableOf, Passed, IsSelection, EligibleIds, WereSeen, AllTasked, Unrepeated, SetOf, SweptSelection, Swept, Handled, Eligible, Min;
    out := new Output();
    err, orphans, stuck, overdue, queued := SweepAll(w, me, now, out);
    TaskedIds(old(w.cells), w.cells, RequeueCountedBy(w.cells, me));
    if err.Nil? {
      TaskedList(old(w.cells), w.cells, overdue);
      TaskedList(old(w.cells), w.cells, queued);
    }
    SeenMeans(old(w.runs), w.runs, RequeueCountedBy(w.cells, me), StuckCountedBy(w.cells, me), now);
    if w.alone && err.Nil? {
      PassOnCells(old(w.cells), w.cells, orphans, stuck, now);
      PassCounts(old(TableOf(w.cells)), TableOf(w.cells), orphans, stuck, overdue, queued, now);
      EligibleCells(old(w.cells), now);
      ReenqueuedCells(w.cells, overdue, queued, now);
    }
  }
}
