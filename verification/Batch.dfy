/** Creating a batch: validation first, one transaction for all rows, then one member at a time. */
module Batch {
  import opened Collections
  import opened Domain
  import opened Sweeps
  import opened Tables
  import opened Protocol
  import opened Ports
  import opened Lasting
  import opened Reconcile
  import opened Draining
  import UseCases

  const MIN_BATCH_SIZE: nat := 1
  const MAX_BATCH_SIZE: nat := 1000

  datatype BatchError =
    | Fine
    | InvalidItem(index: nat)
    | InvalidBatchSize
    | NotPersisted
    | MemberFailed(index: nat, err: Error)

  function PendingRow(now: Nanos): Row {
    NewRow(None, now)
  }

  function QueuedRow(now: Nanos): Row {
    Moved(PendingRow(now), Queued, now)
  }

  /** All members are stored, the first k as queued and the others as pending. */
  ghost predicate QueuedUpTo(cells: map<Id, Cell>, ids: seq<Id>, now: Nanos, k: nat) {
    forall j | 0 <= j < |ids| ::
      ids[j] in cells && cells[ids[j]].row == Some(if j < k then QueuedRow(now) else PendingRow(now))
  }

  // ---------------------------------------------------------------------------------------------
  // Validation
  // ---------------------------------------------------------------------------------------------

  /** One entity per item, up to the first item that does not validate. */
  method BuildNotifications(valid: seq<bool>, now: Nanos) returns (ns: seq<Notification>, bad: Option<nat>)
    ensures bad.None? <==> forall k | 0 <= k < |valid| :: valid[k]
    ensures bad.Some? ==> bad.value < |valid| && !valid[bad.value] && forall k | 0 <= k < bad.value :: valid[k]
    ensures bad.None? ==> |ns| == |valid|
    ensures forall k | 0 <= k < |ns| :: fresh(ns[k]) && ns[k].Snapshot() == PendingRow(now)
    ensures forall k, l | 0 <= k < l < |ns| :: ns[k] != ns[l]
  {
    ns, bad := [], None;
    for i := 0 to |valid|
      invariant |ns| == i && bad.None? && forall k | 0 <= k < i :: valid[k]
      invariant forall k | 0 <= k < |ns| :: fresh(ns[k]) && ns[k].Snapshot() == PendingRow(now)
      invariant forall k, l | 0 <= k < l < |ns| :: ns[k] != ns[l]
    {
      if !valid[i] {
        return ns, Some(i);
      }
      var n := new Notification(PendingRow(now));
      ns := ns + [n];
    }
  }

  // ---------------------------------------------------------------------------------------------
  // The transaction
  // ---------------------------------------------------------------------------------------------

  function AfterInsert(c: Cell, me: ActorId, r: Row, ack: Ack): Cell {
    Cell(Some(r), c.actors[me := if ack.Done? then LoggingCreated(r) else Stopped(PortFailure)], c.h)
  }

  /** An insert that the transaction commits, as the two steps it is in the member's own protocol. */
  lemma InsertEffect(c: Cell, me: ActorId, r: Row, ack: Ack)
    requires (me in c.actors ==> c.actors[me].Stopped?) && c.row.None? && IsNew(r) && !ack.Refused?
    ensures Apply(c, Spawn(me, Inserting(r))) == Some(Goto(c, me, Inserting(r)))
    ensures Apply(Goto(c, me, Inserting(r)), Insert(me, ack)) == Some(AfterInsert(c, me, r, ack))
  {
    var pc := if ack.Done? then LoggingCreated(r) else Stopped(PortFailure);
    assert c.actors[me := Inserting(r)][me := pc] == c.actors[me := pc];
  }

  method InsertOne(w: World, id: Id, me: ActorId, r: Row, ack: Ack)
    requires w.Valid() && id in w.cells && w.cells[id].row.None? && IsNew(r) && !ack.Refused?
    requires me in w.cells[id].actors ==> w.cells[id].actors[me].Stopped?
    modifies w
    ensures w.Valid() && Extends(old(w.runs), w.runs) && |old(w.runs)[id]| < |w.runs[id]| && w.cells[id].row == Some(r)
    ensures w.cells == old(w.cells)[id := AfterInsert(old(w.cells)[id], me, r, ack)]
  {
    hide IsRun, Apply, Extends, Goto, World.Valid;
    ghost var c := w.cells[id];
    InsertEffect(c, me, r, ack);
    w.Take(id, Spawn(me, Inserting(r)));
    label spawned:
    w.Take(id, Insert(me, ack));
    ExtendsTransitively(old(w.runs), old@spawned(w.runs), w.runs);
    assert w.cells == old(w.cells)[id := w.cells[id]];
  }

  /** Every member is stored, and nothing else changed. */
  ghost predicate AllStored(before: map<Id, Cell>, cells: map<Id, Cell>, me: ActorId, ids: seq<Id>, now: Nanos, ack: Ack, k: nat) {
    && cells.Keys == before.Keys
    && (forall j | 0 <= j < |ids| :: ids[j] in before)
    && (forall j | 0 <= j < k && j < |ids| :: cells[ids[j]] == AfterInsert(before[ids[j]], me, PendingRow(now), ack))
    && (forall j | k <= j < |ids| :: cells[ids[j]] == before[ids[j]])
    && (forall id | id in before && id !in ids :: cells[id] == before[id])
  }

  lemma StoredStep(before: map<Id, Cell>, cells: map<Id, Cell>, me: ActorId, ids: seq<Id>, now: Nanos, ack: Ack, k: nat)
    requires AllStored(before, cells, me, ids, now, ack, k) && k < |ids| && Unrepeated(ids)
    ensures ids[k] in cells && cells[ids[k]] == before[ids[k]]
    ensures AllStored(before, cells[ids[k] := AfterInsert(cells[ids[k]], me, PendingRow(now), ack)], me, ids, now, ack, k + 1)
  {
    hide AfterInsert;
  }

  /** Members k onwards are stored and wait for `me` to announce them. */
  ghost predicate Members(cells: map<Id, Cell>, me: ActorId, ids: seq<Id>, now: Nanos, k: nat) {
    forall j | k <= j < |ids| ::
      ids[j] in cells && me in cells[ids[j]].actors && cells[ids[j]].actors[me] == LoggingCreated(PendingRow(now))
  }

  /** Other notifications are left alone when nobody else interferes. */
  ghost predicate OnlyMembers(cells: map<Id, Cell>, cells': map<Id, Cell>, ids: seq<Id>) {
    cells'.Keys == cells.Keys && forall id | id in cells && id !in ids :: cells'[id] == cells[id]
  }

  lemma StoredMembers(before: map<Id, Cell>, cells: map<Id, Cell>, me: ActorId, ids: seq<Id>, now: Nanos, ack: Ack)
    requires AllStored(before, cells, me, ids, now, ack, |ids|)
    ensures QueuedUpTo(cells, ids, now, 0) && (ack.Done? ==> Members(cells, me, ids, now, 0))
    ensures OnlyMembers(before, cells, ids)
  {
  }

  lemma AllStoredStart(cells: map<Id, Cell>, me: ActorId, ids: seq<Id>, now: Nanos, ack: Ack)
    requires forall k | 0 <= k < |ids| :: ids[k] in cells && cells[ids[k]].row.None?
    requires Idle(me, cells)
    ensures AllStored(cells, cells, me, ids, now, ack, 0)
  {
  }

  /** In part of the runs, each of the first k members was stored as `n` says. */
  ghost predicate AllLanded(before: map<Id, seq<Cell>>, after: map<Id, seq<Cell>>, ids: seq<Id>, n: Row, k: nat) {
    forall j | 0 <= j < k && j < |ids| :: ids[j] in before && ids[j] in after && Landed(before[ids[j]], after[ids[j]], n)
  }

  lemma NoneLanded(before: map<Id, seq<Cell>>, after: map<Id, seq<Cell>>, ids: seq<Id>, n: Row)
    ensures AllLanded(before, after, ids, n, 0)
  {
  }

  lemma AllLandedStill(r0: map<Id, seq<Cell>>, r1: map<Id, seq<Cell>>, r2: map<Id, seq<Cell>>, ids: seq<Id>, n: Row, k: nat)
    requires Extends(r0, r1) && Extends(r1, r2) && AllLanded(r0, r1, ids, n, k)
    ensures AllLanded(r0, r2, ids, n, k)
  {
    hide Landed;
    ExtendsItself(r0);
    forall j | 0 <= j < k && j < |ids|
      ensures ids[j] in r2 && Landed(r0[ids[j]], r2[ids[j]], n)
    {
      StillThere(r0, r0, r1, r2, ids[j], n);
    }
  }

  lemma AllLandedNext(r0: map<Id, seq<Cell>>, r1: map<Id, seq<Cell>>, r2: map<Id, seq<Cell>>, ids: seq<Id>, n: Row, k: nat)
    requires Extends(r0, r1) && Extends(r1, r2) && AllLanded(r0, r1, ids, n, k) && k < |ids|
    requires ids[k] in r1 && ids[k] in r2 && Landed(r1[ids[k]], r2[ids[k]], n)
    ensures AllLanded(r0, r2, ids, n, k + 1)
  {
    hide Landed;
    AllLandedStill(r0, r1, r2, ids, n, k);
    ExtendsItself(r2);
    StillThere(r0, r1, r2, r2, ids[k], n);
  }

  lemma AllLandedSince(r0: map<Id, seq<Cell>>, r1: map<Id, seq<Cell>>, r2: map<Id, seq<Cell>>, ids: seq<Id>, n: Row, k: nat)
    requires Extends(r0, r1) && Extends(r1, r2) && AllLanded(r1, r2, ids, n, k)
    ensures AllLanded(r0, r2, ids, n, k)
  {
    hide Landed;
    ExtendsItself(r2);
    forall j | 0 <= j < k && j < |ids|
      ensures ids[j] in r0 && Landed(r0[ids[j]], r2[ids[j]], n)
    {
      StillThere(r0, r1, r2, r2, ids[j], n);
    }
  }

  lemma StaysInWorld(r1: map<Id, seq<Cell>>, r2: map<Id, seq<Cell>>, id: Id)
    requires Extends(r1, r2) && id in r1
    ensures id in r2
  {
  }

  lemma InsertLanded(w: World, id: Id, before: seq<Cell>, r: Row)
    requires w.Valid() && id in w.cells && |before| < |w.runs[id]| && w.cells[id].row == Some(r)
    ensures Landed(before, w.runs[id], r)
  {
    hide IsRun;
    var last := |w.runs[id]| - 1;
    assert Carries(w.runs[id][last].row, r);
  }

  method StoreAll(w: World, ids: seq<Id>, me: ActorId, now: Nanos, ack: Ack)
    requires w.Valid() && Idle(me, w.cells) && Unrepeated(ids) && !ack.Refused?
    requires forall k | 0 <= k < |ids| :: ids[k] in w.cells && w.cells[ids[k]].row.None?
    modifies w
    ensures w.Valid() && Extends(old(w.runs), w.runs) && AllStored(old(w.cells), w.cells, me, ids, now, ack, |ids|)
    ensures AllLanded(old(w.runs), w.runs, ids, PendingRow(now), |ids|)
  {
    hide IsRun, Apply, Extends, World.Valid, AfterInsert, AllStored, AllLanded, Landed;
    AllStoredStart(w.cells, me, ids, now, ack);
    NoneLanded(w.runs, w.runs, ids, PendingRow(now));
    ExtendsItself(w.runs);
    var k := 0;
    while k < |ids|
      invariant 0 <= k <= |ids| && w.Valid() && Extends(old(w.runs), w.runs)
      invariant AllStored(old(w.cells), w.cells, me, ids, now, ack, k)
      invariant AllLanded(old(w.runs), w.runs, ids, PendingRow(now), k)
    {
      StoredStep(old(w.cells), w.cells, me, ids, now, ack, k);
      HasRun(w, ids[k]);
      label inserting:
      InsertOne(w, ids[k], me, PendingRow(now), ack);
      HasRun(w, ids[k]);
      InsertLanded(w, ids[k], old@inserting(w.runs)[ids[k]], PendingRow(now));
      AllLandedNext(old(w.runs), old@inserting(w.runs), w.runs, ids, PendingRow(now), k);
      ExtendsTransitively(old(w.runs), old@inserting(w.runs), w.runs);
      k := k + 1;
    }
  }

  /**
   * The transaction that stores every member: all rows or none, whatever it reports. It fails when
   * an id is taken or repeated.
   */
  method InsertAll(w: World, ids: seq<Id>, me: ActorId, now: Nanos) returns (err: Error, ghost committed: bool)
    requires w.Valid() && Idle(me, w.cells) && forall k | 0 <= k < |ids| :: ids[k] in w.cells
    modifies w
    ensures w.Valid() && Extends(old(w.runs), w.runs) && w.cells.Keys == old(w.cells).Keys
    ensures err in {Nil, PortFailure} && (err.Nil? ==> committed && Members(w.cells, me, ids, now, 0))
    ensures committed ==> Unrepeated(ids) && QueuedUpTo(w.cells, ids, now, 0) && AllLanded(old(w.runs), w.runs, ids, PendingRow(now), |ids|)
    ensures !committed ==> AllSameFor(me, old(w.cells), w.cells) && (w.alone ==> w.cells == old(w.cells))
    ensures Tasked(old(w.cells), w.cells, ids, 0)
    ensures w.alone ==> OnlyMembers(old(w.cells), w.cells, ids)
    ensures w.alone && w.reliable && Unrepeated(ids) && (forall k | 0 <= k < |ids| :: old(w.cells)[ids[k]].row.None?) ==> err.Nil?
  {
    hide IsRun, Apply, Extends, World.Valid, Idle, AllSameFor, AllStored, Members, QueuedUpTo, AllLanded, Tasked, RunsEnd, SameFor, AfterInsert;
    committed := false;
    EachRunEnds(w);
    w.Interfere(me);
    IdleKept(me, old(w.cells), w.cells);
    SameKeys(me, old(w.cells), w.cells);
    var ack := w.AnyAck();
    if ack.Refused? || !Unrepeated(ids) || exists k | 0 <= k < |ids| :: w.cells[ids[k]].row.Some? {
      TaskedSince(w, old(w.runs), old(w.cells), ids);
      err := PortFailure;
      return;
    }
    committed := true;
    label begun:
    StoreAll(w, ids, me, now, ack);
    StoredMembers(old@begun(w.cells), w.cells, me, ids, now, ack);
    AllLandedSince(old(w.runs), old@begun(w.runs), w.runs, ids, PendingRow(now), |ids|);
    ExtendsTransitively(old(w.runs), old@begun(w.runs), w.runs);
    TaskedSince(w, old(w.runs), old(w.cells), ids);
    err := if ack.Done? then Nil else PortFailure;
  }

  // ---------------------------------------------------------------------------------------------
  // The use case
  // ---------------------------------------------------------------------------------------------

  lemma MemberNow(cells: map<Id, Cell>, me: ActorId, ids: seq<Id>, now: Nanos, k: nat)
    requires Members(cells, me, ids, now, k) && k < |ids|
    ensures ids[k] in cells && me in cells[ids[k]].actors && cells[ids[k]].actors[me] == LoggingCreated(PendingRow(now))
  {
  }

  lemma MembersStep(cells: map<Id, Cell>, me: ActorId, alone: bool, cells': map<Id, Cell>, ids: seq<Id>, now: Nanos, k: nat)
    requires Members(cells, me, ids, now, k) && Unrepeated(ids) && k < |ids| && Elsewhere(ids[k], me, alone, cells, cells')
    ensures Members(cells', me, ids, now, k + 1)
  {
    forall j | k + 1 <= j < |ids|
      ensures SameFor(me, cells[ids[j]], cells'[ids[j]])
    {
      assert ids[j] in cells && ids[j] != ids[k];
    }
  }

  lemma RowNow(cells: map<Id, Cell>, ids: seq<Id>, now: Nanos, k: nat)
    requires QueuedUpTo(cells, ids, now, k) && k < |ids|
    ensures ids[k] in cells && cells[ids[k]].row == Some(PendingRow(now))
  {
  }

  lemma RowsStep(cells: map<Id, Cell>, me: ActorId, cells': map<Id, Cell>, ids: seq<Id>, now: Nanos, k: nat)
    requires QueuedUpTo(cells, ids, now, k) && Unrepeated(ids) && k < |ids| && Elsewhere(ids[k], me, true, cells, cells')
    requires ids[k] in cells'
    ensures cells'[ids[k]].row == Some(QueuedRow(now)) ==> QueuedUpTo(cells', ids, now, k + 1)
    ensures cells'[ids[k]].row == Some(PendingRow(now)) ==> QueuedUpTo(cells', ids, now, k)
  {
    forall j | 0 <= j < |ids| && j != k
      ensures cells'[ids[j]] == cells[ids[j]]
    {
      assert ids[j] in cells && ids[j] != ids[k];
    }
  }

  lemma OnlyMembersStep(c0: map<Id, Cell>, c1: map<Id, Cell>, c2: map<Id, Cell>, ids: seq<Id>, k: nat, me: ActorId)
    requires OnlyMembers(c0, c1, ids) && k < |ids| && Elsewhere(ids[k], me, true, c1, c2)
    ensures OnlyMembers(c0, c2, ids)
  {
  }

  /** What a batch leaves behind when nobody interferes, by what the caller is told. */
  ghost predicate Outcome(before: map<Id, Cell>, after: map<Id, Cell>, ids: seq<Id>, now: Nanos, err: BatchError) {
    match err
    case Fine => QueuedUpTo(after, ids, now, |ids|)
    case InvalidItem(_) => after == before
    case InvalidBatchSize => after == before
    case NotPersisted => after == before || QueuedUpTo(after, ids, now, 0)
    case MemberFailed(k, _) => k < |ids| && (QueuedUpTo(after, ids, now, k) || QueuedUpTo(after, ids, now, k + 1))
  }

  /** One member of a stored batch. */
  method EnqueueMember(w: World, me: ActorId, ids: seq<Id>, k: nat, n: Notification, now: Nanos) returns (err: Error)
    requires w.Valid() && k < |ids| && Unrepeated(ids) && Members(w.cells, me, ids, now, k)
    requires n.Snapshot() == PendingRow(now)
    requires w.alone ==> QueuedUpTo(w.cells, ids, now, k)
    modifies w, n
    ensures w.Valid() && Extends(old(w.runs), w.runs) && w.cells.Keys == old(w.cells).Keys
    ensures Members(w.cells, me, ids, now, k + 1)
    ensures err.Nil? ==> Landed(old(w.runs)[ids[k]], w.runs[ids[k]], QueuedRow(now))
    ensures err.Nil? ==> w.cells[ids[k]].h.tasks > old(w.cells)[ids[k]].h.tasks
    ensures w.alone ==> QueuedUpTo(w.cells, ids, now, k) || QueuedUpTo(w.cells, ids, now, k + 1)
    ensures w.alone && err.Nil? ==> QueuedUpTo(w.cells, ids, now, k + 1)
    ensures w.alone && w.reliable ==> err.Nil?
    ensures Elsewhere(ids[k], me, w.alone, old(w.cells), w.cells)
  {
    hide IsRun, Apply, Extends, Elsewhere, World.Valid, Members, QueuedUpTo, OnlyMembers, Landed;
    ghost var before := w.cells;
    MemberNow(before, me, ids, now, k);
    if w.alone {
      RowNow(before, ids, now, k);
    }
    err := UseCases.Announce(w, ids[k], me, n, now);
    ElsewhereKeys(ids[k], me, w.alone, before, w.cells);
    MembersStep(before, me, w.alone, w.cells, ids, now, k);
    if w.alone {
      RowsStep(before, me, w.cells, ids, now, k);
    }
  }

  lemma OnlyMembersStart(cells: map<Id, Cell>, ids: seq<Id>)
    ensures OnlyMembers(cells, cells, ids)
  {
  }

  /** What a batch leaves behind, row by row. */
  lemma OutcomeRows(before: map<Id, Cell>, after: map<Id, Cell>, ids: seq<Id>, now: Nanos, err: BatchError)
    requires Outcome(before, after, ids, now, err)
    ensures err.Fine? ==>
              forall j | 0 <= j < |ids| :: ids[j] in after && after[ids[j]].row == Some(Row(Queued, 0, "", None, None, now, now))
    ensures err.MemberFailed? ==>
              forall j | 0 <= j < |ids| :: ids[j] in after &&
                var queued, pending := Some(Row(Queued, 0, "", None, None, now, now)), Some(Row(Pending, 0, "", None, None, now, now));
                && (j < err.index ==> after[ids[j]].row == queued)
                && (j > err.index ==> after[ids[j]].row == pending)
                && (j == err.index ==> after[ids[j]].row in {queued, pending})
    ensures err.NotPersisted? ==>
              || after == before
              || forall j | 0 <= j < |ids| :: ids[j] in after && after[ids[j]].row == Some(Row(Pending, 0, "", None, None, now, now))
  {
  }

  /** What it means that members were queued in part of the runs. */
  lemma QueuedLanded(before: map<Id, seq<Cell>>, after: map<Id, seq<Cell>>, ids: seq<Id>, now: Nanos, k: nat)
    requires AllLanded(before, after, ids, QueuedRow(now), k)
    ensures forall j | 0 <= j < k && j < |ids| ::
              && ids[j] in before && ids[j] in after
              && exists i :: |before[ids[j]]| <= i < |after[ids[j]]| && after[ids[j]][i].row.Some? &&
                   var r := after[ids[j]][i].row.value;
                   r.status == Queued && r.attempts == 0 && r.lastError == "" && r.nextRetryAt == None && r.updatedAt == now
  {
    forall j | 0 <= j < k && j < |ids|
      ensures ids[j] in before && ids[j] in after
      ensures exists i :: |before[ids[j]]| <= i < |after[ids[j]]| && after[ids[j]][i].row.Some? &&
                var r := after[ids[j]][i].row.value;
                r.status == Queued && r.attempts == 0 && r.lastError == "" && r.nextRetryAt == None && r.updatedAt == now
    {
      assert Landed(before[ids[j]], after[ids[j]], QueuedRow(now));
      var i :| |before[ids[j]]| <= i < |after[ids[j]]| && Carries(after[ids[j]][i].row, QueuedRow(now));
      ColumnsCarried(after[ids[j]][i].row, QueuedRow(now));
    }
  }

  lemma TurnedDown(before: map<Id, Cell>, after: map<Id, Cell>, ids: seq<Id>, now: Nanos, err: BatchError)
    requires err.InvalidItem? || err.InvalidBatchSize? || err.NotPersisted?
    requires after == before || (err.NotPersisted? && QueuedUpTo(after, ids, now, 0))
    ensures Outcome(before, after, ids, now, err)
  {
  }

  lemma SameOutcome(before: map<Id, Cell>, earlier: map<Id, Cell>, after: map<Id, Cell>, ids: seq<Id>, now: Nanos, err: BatchError)
    requires Outcome(before, after, ids, now, err) && (err.Fine? || err.MemberFailed?)
    ensures Outcome(earlier, after, ids, now, err)
  {
  }

  lemma OnlyMembersTransitively(c0: map<Id, Cell>, c1: map<Id, Cell>, c2: map<Id, Cell>, ids: seq<Id>)
    requires OnlyMembers(c0, c1, ids) && OnlyMembers(c1, c2, ids)
    ensures OnlyMembers(c0, c2, ids)
  {
  }

  lemma OnlyMembersMeans(before: map<Id, Cell>, after: map<Id, Cell>, ids: seq<Id>)
    requires OnlyMembers(before, after, ids)
    ensures after.Keys == before.Keys && forall id | id in after && id !in ids :: after[id] == before[id]
  {
  }

  lemma MembersIn(cells: map<Id, Cell>, me: ActorId, ids: seq<Id>, now: Nanos)
    requires Members(cells, me, ids, now, 0)
    ensures forall j | 0 <= j < |ids| :: ids[j] in cells
  {
  }

  /** The loop over the members of a stored batch, up to the first that fails. */
  method EnqueueMembers(w: World, me: ActorId, ids: seq<Id>, ns: seq<Notification>, now: Nanos) returns (err: BatchError)
    requires w.Valid() && Unrepeated(ids) && |ns| == |ids| && Members(w.cells, me, ids, now, 0)
    requires forall k | 0 <= k < |ns| :: ns[k].Snapshot() == PendingRow(now)
    requires forall k, l | 0 <= k < l < |ns| :: ns[k] != ns[l]
    requires w.alone ==> QueuedUpTo(w.cells, ids, now, 0)
    modifies w, ns
    ensures w.Valid() && Extends(old(w.runs), w.runs) && (err.Fine? || (err.MemberFailed? && err.index < |ids|))
    ensures w.alone ==> Outcome(old(w.cells), w.cells, ids, now, err) && OnlyMembers(old(w.cells), w.cells, ids)
    ensures AllLanded(old(w.runs), w.runs, ids, QueuedRow(now), if err.MemberFailed? then err.index else |ids|)
    ensures err.MemberFailed? ==> Members(w.cells, me, ids, now, err.index + 1)
    ensures Tasked(old(w.cells), w.cells, ids, if err.MemberFailed? then err.index else |ids|)
    ensures w.alone && w.reliable ==> err.Fine?
  {
    hide IsRun, Apply, Extends, Elsewhere, World.Valid, Members, QueuedUpTo, OnlyMembers, AllLanded, Landed, Unrepeated, PendingRow, QueuedRow, Tasked;
    ExtendsItself(w.runs);
    OnlyMembersStart(w.cells, ids);
    NoneLanded(w.runs, w.runs, ids, QueuedRow(now));
    MembersIn(w.cells, me, ids, now);
    TaskedStart(w.cells, ids);
    var k := 0;
    while k < |ids|
      invariant 0 <= k <= |ids| && w.Valid() && Extends(old(w.runs), w.runs)
      invariant Members(w.cells, me, ids, now, k)
      invariant forall j | k <= j < |ids| :: ns[j].Snapshot() == PendingRow(now)
      invariant AllLanded(old(w.runs), w.runs, ids, QueuedRow(now), k)
      invariant Tasked(old(w.cells), w.cells, ids, k)
      invariant w.alone ==> QueuedUpTo(w.cells, ids, now, k) && OnlyMembers(old(w.cells), w.cells, ids)
    {
      MemberNow(w.cells, me, ids, now, k);
      HasRun(w, ids[k]);
      LastCell(w, ids[k]);
      label announcing:
      var failure := EnqueueMember(w, me, ids, k, ns[k], now);
      SignalsKept(w, ids[k], old@announcing(w.runs), old@announcing(w.cells)[ids[k]]);
      TaskedStep(old(w.cells), old@announcing(w.cells), w.cells, ids, k, me, w.alone, failure.Nil?);
      ExtendsTransitively(old(w.runs), old@announcing(w.runs), w.runs);
      AllLandedStill(old(w.runs), old@announcing(w.runs), w.runs, ids, QueuedRow(now), k);
      if w.alone {
        OnlyMembersStep(old(w.cells), old@announcing(w.cells), w.cells, ids, k, me);
      }
      if !failure.Nil? {
        return MemberFailed(k, failure);
      }
      StaysInWorld(old@announcing(w.runs), w.runs, ids[k]);
      AllLandedNext(old(w.runs), old@announcing(w.runs), w.runs, ids, QueuedRow(now), k);
      k := k + 1;
    }
    err := Fine;
  }

  /**
   * CreateBatch.Execute with ids and validity of the items given: invalid input touches nothing, the
   * rows are stored together or not at all, and a later failure leaves a queued prefix, at most one
   * member in either state, and a pending suffix.
   */
  method CreateBatch(w: World, me: ActorId, ids: seq<Id>, valid: seq<bool>, now: Nanos) returns (err: BatchError)
    requires w.Valid() && Idle(me, w.cells) && |ids| == |valid| && forall k | 0 <= k < |ids| :: ids[k] in w.cells
    modifies w
    ensures w.Valid() && Extends(old(w.runs), w.runs)
    ensures err.InvalidItem? <==> exists k :: 0 <= k < |valid| && !valid[k]
    ensures err.InvalidItem? ==> err.index < |valid| && !valid[err.index] && forall k | 0 <= k < err.index :: valid[k]
    ensures err.InvalidBatchSize? <==> !err.InvalidItem? && !(1 <= |ids| <= 1000)
    ensures err.InvalidItem? || err.InvalidBatchSize? ==> w.cells == old(w.cells) && w.runs == old(w.runs)
    ensures w.alone ==> Outcome(old(w.cells), w.cells, ids, now, err) && OnlyMembers(old(w.cells), w.cells, ids)
    ensures w.alone && err.Fine? ==>
              forall j | 0 <= j < |ids| :: ids[j] in w.cells && w.cells[ids[j]].row == Some(Row(Queued, 0, "", None, None, now, now))
    ensures w.alone && err.MemberFailed? ==>
              forall j | 0 <= j < |ids| :: ids[j] in w.cells &&
                var queued, pending := Some(Row(Queued, 0, "", None, None, now, now)), Some(Row(Pending, 0, "", None, None, now, now));
                && (j < err.index ==> w.cells[ids[j]].row == queued)
                && (j > err.index ==> w.cells[ids[j]].row == pending)
                && (j == err.index ==> w.cells[ids[j]].row in {queued, pending})
    ensures w.alone && err.NotPersisted? ==>
              || w.cells == old(w.cells)
              || forall j | 0 <= j < |ids| :: ids[j] in w.cells && w.cells[ids[j]].row == Some(Row(Pending, 0, "", None, None, now, now))
    ensures w.alone ==> w.cells.Keys == old(w.cells).Keys && forall id | id in w.cells && id !in ids :: w.cells[id] == old(w.cells)[id]
    ensures err.Fine? || err.MemberFailed? ==>
              forall j | 0 <= j < |ids| && (err.MemberFailed? ==> j < err.index) ::
                && ids[j] in old(w.runs) && ids[j] in w.runs
                && exists i :: |old(w.runs)[ids[j]]| <= i < |w.runs[ids[j]]| && w.runs[ids[j]][i].row.Some? &&
                     var r := w.runs[ids[j]][i].row.value;
                     r.status == Queued && r.attempts == 0 && r.lastError == "" && r.nextRetryAt == None && r.updatedAt == now
    ensures err.Fine? || err.MemberFailed? ==>
              forall j | 0 <= j < |ids| && (err.MemberFailed? ==> j < err.index) ::
                ids[j] in w.cells && w.cells[ids[j]].h.tasks > old(w.cells)[ids[j]].h.tasks
    ensures err.Fine? ==> AllLanded(old(w.runs), w.runs, ids, QueuedRow(now), |ids|)
    ensures err.MemberFailed? ==>
              && err.index < |ids| && AllLanded(old(w.runs), w.runs, ids, PendingRow(now), |ids|)
              && AllLanded(old(w.runs), w.runs, ids, QueuedRow(now), err.index)
              && Members(w.cells, me, ids, now, err.index + 1)
    ensures err.NotPersisted? ==>
              AllLanded(old(w.runs), w.runs, ids, PendingRow(now), |ids|) || AllSameFor(me, old(w.cells), w.cells)
    ensures w.alone && w.reliable && Unrepeated(ids) && (forall k | 0 <= k < |ids| :: old(w.cells)[ids[k]].row.None?) ==>
              err.Fine? || err.InvalidItem? || err.InvalidBatchSize?
  {
    hide IsRun, Apply, Extends, Elsewhere, World.Valid, Idle, Members, QueuedUpTo, OnlyMembers, AllLanded, AllSameFor, Landed,
         Unrepeated, PendingRow, QueuedRow, Outcome, Tasked, World.At, SameFor, SameCounted, Carries, Written;
    ExtendsItself(w.runs);
    OnlyMembersStart(w.cells, ids);
    OnlyMembersMeans(w.cells, w.cells, ids);
    var ns, bad := BuildNotifications(valid, now);
    if bad.Some? {
      TurnedDown(old(w.cells), w.cells, ids, now, InvalidItem(bad.value));
      return InvalidItem(bad.value);
    }
    if |ns| < MIN_BATCH_SIZE || |ns| > MAX_BATCH_SIZE {
      TurnedDown(old(w.cells), w.cells, ids, now, InvalidBatchSize);
      return InvalidBatchSize;
    }
    ghost var committed;
    var failure;
    failure, committed := InsertAll(w, ids, me, now);
    if !failure.Nil? {
      if w.alone {
        TurnedDown(old(w.cells), w.cells, ids, now, NotPersisted);
        OutcomeRows(old(w.cells), w.cells, ids, now, NotPersisted);
        OnlyMembersMeans(old(w.cells), w.cells, ids);
      }
      return NotPersisted;
    }
    label stored:
    err := EnqueueMembers(w, me, ids, ns, now);
    AllLandedStill(old(w.runs), old@stored(w.runs), w.runs, ids, PendingRow(now), |ids|);
    ghost var queued := if err.MemberFailed? then err.index else |ids|;
    AllLandedSince(old(w.runs), old@stored(w.runs), w.runs, ids, QueuedRow(now), queued);
    TaskedMeans(old(w.cells), old@stored(w.cells), w.cells, ids, queued);
    QueuedLanded(old(w.runs), w.runs, ids, now, queued);
    ExtendsTransitively(old(w.runs), old@stored(w.runs), w.runs);
    if w.alone {
      OnlyMembersTransitively(old(w.cells), old@stored(w.cells), w.cells, ids);
      SameOutcome(old@stored(w.cells), old(w.cells), w.cells, ids, now, err);
      OutcomeRows(old(w.cells), w.cells, ids, now, err);
      OnlyMembersMeans(old(w.cells), w.cells, ids);
    }
  }

  // ---------------------------------------------------------------------------------------------
  // Recovery
  // ---------------------------------------------------------------------------------------------

  lemma SelectedTarget(table: Table, table': Table, sweep: Sweep, ids: seq<Id>, now: Nanos, id: Id)
    requires SweptSelection(table, table', sweep, ids, now) && id in table
    ensures id in table' && (table[id].status != Target(sweep) ==> table'[id] == table[id])
    ensures table'[id] == table[id] || table'[id] == Handled(sweep, table[id], now)
  {
    if id in ids {
      var k :| 0 <= k < |ids| && ids[k] == id;
      assert ids[k] in EligibleIds(table, sweep, now);
    }
  }

  /** A pass leaves a queued row alone and either leaves a pending one alone or queues it. */
  lemma PassQueues(run: Run, id: Id)
    requires Passed(run.before, run.after, run.orphans, run.stuck, run.now)
    requires id in run.before && run.before[id].status in {Pending, Queued}
    ensures id in run.after && run.after[id].status in {Pending, Queued}
    ensures run.before[id].status == Queued ==> run.after[id].status == Queued
    ensures id in PassOf(OrphanedPending, run).after && run.after[id] == PassOf(OrphanedPending, run).after[id]
  {
    hide SweptSelection, Swept;
    var between := Swept(run.before, OrphanedPending, run.orphans, run.now);
    SelectedTarget(run.before, between, OrphanedPending, run.orphans, run.now, id);
    SelectedTarget(between, run.after, StuckProcessing, run.stuck, run.now, id);
  }

  lemma {:induction false} StaysPendingOrQueued(runs: seq<Run>, id: Id)
    requires runs != [] && BackToBack(runs)
    requires id in runs[0].before && runs[0].before[id].status in {Pending, Queued}
    ensures var last := runs[|runs| - 1];
            && id in last.after && last.after[id].status in {Pending, Queued}
            && (runs[0].before[id].status == Queued ==> last.after[id].status == Queued)
            && id in PassOf(OrphanedPending, last).after && last.after[id] == PassOf(OrphanedPending, last).after[id]
  {
    hide Passed, PassOf;
    var front, last := runs[..|runs| - 1], runs[|runs| - 1];
    if front != [] {
      StaysPendingOrQueued(front, id);
      assert last.before == front[|front| - 1].after;
    }
    PassQueues(last, id);
  }

  lemma PendingMembers(table: Table, cells: map<Id, Cell>, ids: seq<Id>, created: Nanos, k: nat, now: Nanos)
    requires table == TableOf(cells) && QueuedUpTo(cells, ids, created, k) && k <= |ids|
    requires EligibleIds(table, OrphanedPending, now) <= SetOf(ids)
    ensures |EligibleIds(table, OrphanedPending, now)| <= |ids| - k
    ensures forall id | id in ids :: id in table && table[id].status in {Pending, Queued}
    ensures created + ORPHANED_PENDING_THRESHOLD < now ==>
              forall id | id in ids :: table[id].status == Queued || id in EligibleIds(table, OrphanedPending, now)
  {
    var eligible := EligibleIds(table, OrphanedPending, now);
    forall id | id in eligible
      ensures id in SetOf(ids[k..])
    {
      var j :| 0 <= j < |ids| && ids[j] == id;
      assert j >= k && ids[k..][j - k] == id;
    }
    SetOfAtMost(ids[k..]);
    SubsetSize(eligible, SetOf(ids[k..]));
    forall id | id in ids
      ensures id in table && table[id].status in {Pending, Queued}
      ensures created + ORPHANED_PENDING_THRESHOLD < now ==> table[id].status == Queued || id in eligible
    {
      var j :| 0 <= j < |ids| && ids[j] == id;
    }
  }

  /**
   * A batch that was abandoned after its first k members recovers: once the others count as orphans,
   * and there is no other orphan, ceil((|ids| - k) / 100) error-free passes bring every member to
   * queued. A batch has at most a thousand members, so ten passes are always enough.
   */
  lemma AbandonedBatchRecovers(cells: map<Id, Cell>, ids: seq<Id>, created: Nanos, k: nat, runs: seq<Run>)
    requires QueuedUpTo(cells, ids, created, k) && k <= |ids| <= 1000
    requires runs != [] && BackToBack(runs) && runs[0].before == TableOf(cells)
    requires created + 300_000_000_000 < runs[0].now
    requires EligibleIds(TableOf(cells), OrphanedPending, runs[0].now) <= SetOf(ids)
    requires |runs| >= 10 || 100 * |runs| >= |ids| - k
    ensures forall id | id in ids :: id in runs[|runs| - 1].after && runs[|runs| - 1].after[id].status == Queued
  {
    hide BackToBack, AreRuns, QueuedUpTo, EligibleIds, IsSchedule, Quiet;
    var passes := PassesOf(OrphanedPending, runs);
    BackToBackRuns(runs);
    RunsAreSchedules(runs, OrphanedPending);
    PendingMembers(TableOf(cells), cells, ids, created, k, runs[0].now);
    Drained(OrphanedPending, passes);
    forall id | id in ids
      ensures id in runs[|runs| - 1].after && runs[|runs| - 1].after[id].status == Queued
    {
      StaysPendingOrQueued(runs, id);
    }
  }
}
