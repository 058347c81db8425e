/**
 * The world a use case runs in: the notifications table, the log, the queue, the provider, the
 * limiter and every other actor, as methods that each perform one step of the protocol after any
 * number of steps of others. The ghost field `runs` records every step, so that whatever holds in
 * every run of the protocol holds of the code that calls these methods.
 */
module Ports {
  import opened Domain
  import opened RetryPolicy
  import opened Sweeps
  import opened Protocol
  import opened Tables

  // ---------------------------------------------------------------------------------------------
  // What others leave alone
  // ---------------------------------------------------------------------------------------------

  /** Nothing that belongs to `me` differs, and no signal is taken back. */
  predicate SameFor(me: ActorId, c: Cell, c': Cell) {
    && (me in c.actors <==> me in c'.actors)
    && (me in c.actors ==> c'.actors[me] == c.actors[me])
    && (me in c.h.stuckCounted <==> me in c'.h.stuckCounted)
    && (me in c.h.requeueCounted <==> me in c'.h.requeueCounted)
    && c.h.tasks <= c'.h.tasks && c.h.broadcasts <= c'.h.broadcasts && c.h.hints <= c'.h.hints
  }

  /** No step of another actor touches what belongs to `me`. */
  lemma OthersKeepMine(me: ActorId, c: Cell, e: Event, c': Cell)
    requires Apply(c, e) == Some(c') && e.a != me
    ensures SameFor(me, c, c')
  {
  }

  ghost predicate AllSameFor(me: ActorId, cells: map<Id, Cell>, cells': map<Id, Cell>) {
    cells.Keys == cells'.Keys && forall id | id in cells :: SameFor(me, cells[id], cells'[id])
  }

  /** Other notifications: untouched when `me` is alone, and never touched in what belongs to `me`. */
  ghost predicate Elsewhere(id: Id, me: ActorId, alone: bool, cells: map<Id, Cell>, cells': map<Id, Cell>) {
    cells.Keys == cells'.Keys &&
    forall x | x in cells && x != id :: SameFor(me, cells[x], cells'[x]) && (alone ==> cells'[x] == cells[x])
  }

  lemma ElsewhereTransitively(id: Id, me: ActorId, alone: bool, c0: map<Id, Cell>, c1: map<Id, Cell>, c2: map<Id, Cell>)
    requires Elsewhere(id, me, alone, c0, c1) && Elsewhere(id, me, alone, c1, c2)
    ensures Elsewhere(id, me, alone, c0, c2)
  {
  }

  /** Neither counter of `me` changed on this notification. */
  predicate SameCounted(me: ActorId, c: Cell, c': Cell) {
    && (me in c'.h.stuckCounted <==> me in c.h.stuckCounted)
    && (me in c'.h.requeueCounted <==> me in c.h.requeueCounted)
  }

  /** Every run only grew. */
  ghost predicate Extends(runs: map<Id, seq<Cell>>, runs': map<Id, seq<Cell>>) {
    runs.Keys == runs'.Keys &&
    forall id | id in runs :: |runs[id]| <= |runs'[id]| && runs'[id][..|runs[id]|] == runs[id]
  }

  lemma ExtendsItself(runs: map<Id, seq<Cell>>)
    ensures Extends(runs, runs)
  {
  }

  lemma ExtendsTransitively(r0: map<Id, seq<Cell>>, r1: map<Id, seq<Cell>>, r2: map<Id, seq<Cell>>)
    requires Extends(r0, r1) && Extends(r1, r2)
    ensures Extends(r0, r2)
  {
    forall id | id in r0
      ensures |r0[id]| <= |r2[id]| && r2[id][..|r0[id]|] == r0[id]
    {
      assert r2[id][..|r0[id]|] == r2[id][..|r1[id]|][..|r0[id]|];
    }
  }

  /** The columns that a status write sets are those of `n`. */
  predicate Carries(row: Option<Row>, n: Row) {
    row.Some? && row.value == Written(row.value, n)
  }

  /** Column by column: all but scheduled_at and created_at, which stay as stored. */
  lemma ColumnsCarried(row: Option<Row>, n: Row)
    ensures Carries(row, n) <==>
            row.Some? && row.value == Row(n.status, n.attempts, n.lastError, n.nextRetryAt, row.value.scheduledAt, row.value.createdAt, n.updatedAt)
    ensures forall r: Row :: Written(r, n) == Row(n.status, n.attempts, n.lastError, n.nextRetryAt, r.scheduledAt, r.createdAt, n.updatedAt)
  {
  }

  /** Between two moments of a run, the row was as `n` was written. */
  ghost predicate Landed(before: seq<Cell>, after: seq<Cell>, n: Row) {
    exists i :: |before| <= i < |after| && Carries(after[i].row, n)
  }

  /** At some moment of a run, the event was in the log. */
  ghost predicate Logged(run: seq<Cell>, event: LogEvent) {
    exists i :: 0 <= i < |run| && run[i].h.log[event] >= 1
  }

  /** What landed or was logged in part of a longer stretch did so in all of it. */
  lemma StillThere(r0: map<Id, seq<Cell>>, r1: map<Id, seq<Cell>>, r2: map<Id, seq<Cell>>, r3: map<Id, seq<Cell>>, id: Id, n: Row)
    requires Extends(r0, r1) && Extends(r1, r2) && Extends(r2, r3) && id in r0
    ensures Landed(r1[id], r2[id], n) ==> Landed(r0[id], r3[id], n)
  {
    if Landed(r1[id], r2[id], n) {
      var i :| |r1[id]| <= i < |r2[id]| && Carries(r2[id][i].row, n);
      assert r3[id][i] == r3[id][..|r2[id]|][i];
    }
  }

  lemma StillLogged(r1: map<Id, seq<Cell>>, r2: map<Id, seq<Cell>>, id: Id, event: LogEvent)
    requires Extends(r1, r2) && id in r1 && Logged(r1[id], event)
    ensures Logged(r2[id], event)
  {
    var i :| 0 <= i < |r1[id]| && r1[id][i].h.log[event] >= 1;
    assert r2[id][i] == r2[id][..|r1[id]|][i];
  }

  /** From the end of one part of a run to the end of a longer one, the row was `r` at some moment. */
  ghost predicate Seen(before: seq<Cell>, after: seq<Cell>, r: Row) {
    exists i :: |before| - 1 <= i < |after| && i >= 0 && after[i].row == Some(r)
  }

  lemma StillSeen(r0: map<Id, seq<Cell>>, r1: map<Id, seq<Cell>>, r2: map<Id, seq<Cell>>, id: Id, r: Row)
    requires Extends(r0, r1) && Extends(r1, r2) && id in r0 && Seen(r0[id], r1[id], r)
    ensures id in r2 && Seen(r0[id], r2[id], r)
  {
    var i :| |r0[id]| - 1 <= i < |r1[id]| && i >= 0 && r1[id][i].row == Some(r);
    assert r2[id][i] == r2[id][..|r1[id]|][i];
  }

  /** The rows a reconciler pass counted in StuckProcessingFailed. */
  function StuckCountedBy(cells: map<Id, Cell>, pass: ActorId): set<Id> {
    set id | id in cells && pass in cells[id].h.stuckCounted
  }

  /** The rows a reconciler pass counted in OrphanedPendingReenqueued. */
  function RequeueCountedBy(cells: map<Id, Cell>, pass: ActorId): set<Id> {
    set id | id in cells && pass in cells[id].h.requeueCounted
  }

  /** The stored rows. */
  function TableOf(cells: map<Id, Cell>): Table {
    map id | id in cells && cells[id].row.Some? :: cells[id].row.value
  }

  /** `me` has no call in progress anywhere. */
  predicate Idle(me: ActorId, cells: map<Id, Cell>) {
    forall id | id in cells && me in cells[id].actors :: cells[id].actors[me].Stopped?
  }

  lemma SameKeys(me: ActorId, cells: map<Id, Cell>, cells': map<Id, Cell>)
    requires AllSameFor(me, cells, cells')
    ensures cells.Keys == cells'.Keys
  {
  }

  lemma IdleKept(me: ActorId, cells: map<Id, Cell>, cells': map<Id, Cell>)
    requires Idle(me, cells) && AllSameFor(me, cells, cells')
    ensures Idle(me, cells')
    ensures forall id | id in cells' :: SameCounted(me, cells[id], cells'[id])
  {
  }

  lemma IdleMeansStopped(me: ActorId, cells: map<Id, Cell>)
    requires Idle(me, cells)
    ensures forall id | id in cells && me in cells[id].actors :: cells[id].actors[me].Stopped?
  {
  }

  lemma CountedKept(me: ActorId, cells: map<Id, Cell>, cells': map<Id, Cell>, cells'': map<Id, Cell>)
    requires cells.Keys == cells'.Keys == cells''.Keys
    requires forall id | id in cells' :: SameCounted(me, cells[id], cells'[id])
    requires forall id | id in cells'' :: cells''[id].h == cells'[id].h
    ensures forall id | id in cells'' :: SameCounted(me, cells[id], cells''[id])
  {
  }

  lemma SameTable(cells: map<Id, Cell>, cells': map<Id, Cell>)
    requires cells.Keys == cells'.Keys && forall id | id in cells' :: cells'[id].row == cells[id].row
    ensures TableOf(cells') == TableOf(cells)
    ensures forall id | id in TableOf(cells) :: id in cells' && cells'[id].row == Some(TableOf(cells)[id])
  {
  }

  lemma SelectionFacts(table: Table, sweep: Sweep, now: Nanos, limit: nat, ids: seq<Id>)
    requires IsSelection(table, sweep, now, limit, ids)
    ensures |ids| <= limit
    ensures forall k | 0 <= k < |ids| ::
              ids[k] in table && Eligible(sweep, table[ids[k]], now) && table[ids[k]].status == Target(sweep)
    ensures forall k, l | 0 <= k < l < |ids| :: ids[k] != ids[l]
  {
  }

  /** `me` holds a copy of the first k rows selected, and nothing else changed. */
  ghost predicate Held(before: map<Id, Cell>, cells: map<Id, Cell>, me: ActorId, ids: seq<Id>, table: Table, sweep: Sweep, now: Nanos, k: nat) {
    && cells.Keys == before.Keys
    && (forall j | 0 <= j < |ids| :: ids[j] in before && ids[j] in table && before[ids[j]].row == Some(table[ids[j]]))
    && (forall j | 0 <= j < |ids| && me in before[ids[j]].actors :: before[ids[j]].actors[me].Stopped?)
    && (forall j | 0 <= j < k && j < |ids| :: cells[ids[j]] == Goto(before[ids[j]], me, AfterSelect(sweep, table[ids[j]], now)))
    && (forall j | k <= j < |ids| :: cells[ids[j]] == before[ids[j]])
    && (forall id | id in before && id !in ids :: cells[id] == before[id])
  }

  lemma HeldStart(cells: map<Id, Cell>, me: ActorId, ids: seq<Id>, table: Table, sweep: Sweep, now: Nanos)
    requires Idle(me, cells) && table == TableOf(cells) && forall k | 0 <= k < |ids| :: ids[k] in table
    ensures Held(cells, cells, me, ids, table, sweep, now, 0)
  {
  }

  lemma HeldNext(before: map<Id, Cell>, cells: map<Id, Cell>, me: ActorId, ids: seq<Id>, table: Table, sweep: Sweep, now: Nanos, k: nat)
    requires Held(before, cells, me, ids, table, sweep, now, k) && k < |ids|
    requires forall j, l | 0 <= j < l < |ids| :: ids[j] != ids[l]
    ensures ids[k] in cells && cells[ids[k]].row == Some(table[ids[k]])
    ensures me in cells[ids[k]].actors ==> cells[ids[k]].actors[me].Stopped?
    ensures Held(before, cells[ids[k] := Goto(cells[ids[k]], me, AfterSelect(sweep, table[ids[k]], now))], me, ids, table, sweep, now, k + 1)
  {
    hide Goto, AfterSelect;
  }

  lemma HeldEnd(before: map<Id, Cell>, cells: map<Id, Cell>, me: ActorId, ids: seq<Id>, table: Table, sweep: Sweep, now: Nanos)
    requires Held(before, cells, me, ids, table, sweep, now, |ids|)
    ensures cells.Keys == before.Keys
    ensures forall k | 0 <= k < |ids| ::
              ids[k] in cells && me in cells[ids[k]].actors && cells[ids[k]].actors[me] == AfterSelect(sweep, table[ids[k]], now)
    ensures forall id | id in cells :: cells[id].row == before[id].row && cells[id].h == before[id].h
    ensures forall id | id in cells && id !in ids :: cells[id] == before[id]
  {
    hide AfterSelect;
    forall id | id in cells
      ensures cells[id].row == before[id].row && cells[id].h == before[id].h
    {
      if id in ids {
        var j :| 0 <= j < |ids| && ids[j] == id;
      }
    }
  }

  /** A row returned by a sweep's SELECT. */
  datatype Found = Found(id: Id, row: Row)

  function IdsOf(found: seq<Found>): (ids: seq<Id>)
    ensures |ids| == |found| && forall k | 0 <= k < |ids| :: ids[k] == found[k].id
  {
    seq(|found|, k requires 0 <= k < |found| => found[k].id)
  }

  // ---------------------------------------------------------------------------------------------
  // One port call at a time
  // ---------------------------------------------------------------------------------------------

  /** Whether an event is the next port call of an actor at this program counter. */
  predicate Enabled(pc: Pc, e: Event) {
    match e
    case Spawn(_, _) => false
    case Crash(_) => true
    case Insert(_, _) => pc.Inserting?
    case Claim(_, _, _) => pc.Claiming?
    case Append(_, _) => EventOf(pc).Some?
    case Publish(_, _) => pc.PublishingProcessing? || pc.PublishingOutcome?
    case Limit(_, _) => pc.AskingLimiter?
    case SendStart(_) => pc.ReadyToSend?
    case SendReturn(_, _) => pc.Sending?
    case Update(_, now, _) => WriteOf(pc, now).Some?
    case Enqueue(_, _) => pc.Enqueuing? || pc.EnqueuingRequeued? || pc.Reenqueuing?
    case Get(_, _, _) => pc.Reading?
    case Select(_, _, _) => false
    case DropTask(_, _) => pc.DroppingTask?
  }

  lemma EnabledApplies(c: Cell, e: Event)
    requires e.a in c.actors && Enabled(c.actors[e.a], e)
    ensures Apply(c, e).Some?
    ensures var c' := Apply(c, e).value; e.a in c'.actors && c'.actors.Keys == c.actors.Keys
  {
  }

  lemma ClaimEffect(c: Cell, me: ActorId, now: Nanos, ack: Ack, c': Cell)
    requires me in c.actors && c.actors[me] == Claiming && Apply(c, Claim(me, now, ack)) == Some(c')
    ensures me in c'.actors
    ensures match c'.actors[me]
            case LoggingProcessing(n) => n.status == Processing && n.attempts >= 1 && c'.row == Some(n)
            case Stopped(err) => err in {PortFailure, NotFound, AlreadyClaimed}
            case _ => false
    ensures !c'.actors[me].Stopped? ==>
              && c.row.Some? && c.row.value.status in {Queued, Retrying}
              && var r := c.row.value;
                 c'.row == Some(Row(Processing, r.attempts + 1, r.lastError, r.nextRetryAt, r.scheduledAt, r.createdAt, now))
    ensures ack.Done? ==>
              c'.actors[me].Stopped? ==
              (c.row.None? || c.row.value.status !in {Queued, Retrying} || c.row.value.attempts >= 0x7fff_ffff)
    ensures ack.Done? && c.row.None? ==> c'.actors[me] == Stopped(NotFound)
    ensures ack.Done? && c.row.Some? && c.row.value.status !in {Queued, Retrying} ==> c'.actors[me] == Stopped(AlreadyClaimed)
  {
  }

  lemma UpdateEffect(c: Cell, me: ActorId, now: Nanos, ack: Ack, c': Cell)
    requires me in c.actors && WriteOf(c.actors[me], now).Some? && Apply(c, Update(me, now, ack)) == Some(c')
    ensures me in c'.actors
    ensures var w := WriteOf(c.actors[me], now).value;
            && (c'.actors[me] == w.next || c'.actors[me] == Stopped(PortFailure) || c'.actors[me] == Stopped(ConcurrentUpdate))
            && !w.next.Stopped?
            && (c'.row == c.row || (GuardHolds(c.row, w.source) && c'.row == Some(Written(c.row.value, w.n))))
            && (c'.actors[me] == w.next ==> GuardHolds(c.row, w.source) && c'.row == Some(Written(c.row.value, w.n)))
            && (ack.Done? && GuardHolds(c.row, w.source) ==> c'.actors[me] == w.next)
            && (ack.Done? ==> c'.actors[me] != Stopped(PortFailure))
            && (c'.actors[me] == w.next ==> Carries(c'.row, w.n))
            && (c'.actors[me] == Stopped(ConcurrentUpdate) ==> c'.row == c.row && !(c.row.Some? && c.row.value.status == w.source))
    ensures c'.h.stuckCounted == c.h.stuckCounted && c'.h.requeueCounted == c.h.requeueCounted
  {
  }

  lemma AppendEffect(c: Cell, me: ActorId, ack: Ack, c': Cell)
    requires me in c.actors && EventOf(c.actors[me]).Some? && Apply(c, Append(me, ack)) == Some(c')
    ensures me in c'.actors && c'.row == c.row
    ensures c'.actors[me] == if ack.Done? then AfterAppend(c.actors[me]) else Stopped(PortFailure)
    ensures ack.Done? ==> c'.h.log[EventOf(c.actors[me]).value] >= 1
    ensures me in c'.h.stuckCounted <==> me in c.h.stuckCounted || (c.actors[me].LoggingTimeout? && ack.Done?)
    ensures me in c'.h.requeueCounted <==> me in c.h.requeueCounted
  {
  }

  lemma EnqueueEffect(c: Cell, me: ActorId, ok: bool, c': Cell)
    requires me in c.actors && Apply(c, Enqueue(me, ok)) == Some(c')
    ensures me in c'.actors && c'.row == c.row
    ensures c'.actors[me] == if !ok then Stopped(PortFailure)
                             else if c.actors[me].Enqueuing? then MarkingQueued(c.actors[me].n) else Stopped(Nil)
    ensures c'.h.tasks == c.h.tasks + if ok then 1 else 0
    ensures me in c'.h.requeueCounted <==> me in c.h.requeueCounted || (c.actors[me].EnqueuingRequeued? && ok)
    ensures me in c'.h.stuckCounted <==> me in c.h.stuckCounted
  {
  }

  lemma InsertEffect(c: Cell, me: ActorId, ack: Ack, c': Cell)
    requires me in c.actors && c.actors[me].Inserting? && Apply(c, Insert(me, ack)) == Some(c')
    ensures var n := c.actors[me].n;
            && me in c'.actors
            && (c'.actors[me] == LoggingCreated(n) || c'.actors[me] == Stopped(PortFailure))
            && (c'.actors[me] == LoggingCreated(n) ==> c'.row == Some(n))
            && (c'.row == c.row || c'.row == Some(n))
            && (ack.Done? && c.row.None? ==> c'.actors[me] == LoggingCreated(n))
  {
  }

  lemma LimitEffect(c: Cell, me: ActorId, verdict: Verdict, c': Cell)
    requires me in c.actors && c.actors[me].AskingLimiter? && Apply(c, Limit(me, verdict)) == Some(c')
    ensures me in c'.actors && c'.row == c.row
    ensures c'.actors[me] == match verdict
                             case Allowed => ReadyToSend(c.actors[me].n)
                             case Denied => Rescheduling(c.actors[me].n)
                             case Unavailable => Stopped(PortFailure)
  {
  }

  lemma OtherEffects(c: Cell, me: ActorId, e: Event, c': Cell)
    requires me in c.actors && e.a == me && Apply(c, e) == Some(c')
    ensures me in c'.actors && (e.Publish? || e.SendStart? || e.SendReturn? || e.DropTask? ==> c'.row == c.row)
    ensures e.Publish? && c.actors[me].PublishingProcessing? ==>
              c'.actors[me] == if e.ok then AskingLimiter(c.actors[me].n) else Stopped(PortFailure)
    ensures e.Publish? && c.actors[me].PublishingOutcome? ==>
              c'.actors[me] == Stopped(if e.ok then c.actors[me].cause else PortFailure)
    ensures e.Publish? && e.ok ==> c'.h.broadcasts == c.h.broadcasts + 1
    ensures e.DropTask? && e.ok ==> c'.h.hints == c.h.hints + 1
    ensures e.SendStart? ==> c'.actors[me] == Sending(c.actors[me].n)
    ensures e.SendReturn? ==> c'.actors[me] == Applying(c.actors[me].n, e.result)
    ensures e.DropTask? ==> c'.actors[me] == Stopped(if e.ok then Nil else PortFailure)
  {
  }

  lemma GetEffect(c: Cell, me: ActorId, now: Nanos, ok: bool, c': Cell)
    requires me in c.actors && c.actors[me] == Reading && Apply(c, Get(me, now, ok)) == Some(c')
    ensures c' == Read(c, me, now, ok)
  {
  }

  lemma SelectEffect(c: Cell, me: ActorId, sweep: Sweep, r: Row, now: Nanos)
    requires (me in c.actors ==> c.actors[me].Stopped?) && c.row == Some(r) && Eligible(sweep, r, now)
    ensures Apply(c, Spawn(me, Scanning)) == Some(Goto(c, me, Scanning))
    ensures Apply(Goto(c, me, Scanning), Event.Select(me, sweep, now)) == Some(Goto(c, me, AfterSelect(sweep, r, now)))
  {
    var pc := AfterSelect(sweep, r, now);
    assert c.actors[me := Scanning][me := pc] == c.actors[me := pc];
  }

  /** What was seen of the rows of a result stays seen. */
  lemma AllStillSeen(r0: map<Id, seq<Cell>>, r1: map<Id, seq<Cell>>, r2: map<Id, seq<Cell>>, found: seq<Found>)
    requires Extends(r0, r1) && Extends(r1, r2)
    requires forall k | 0 <= k < |found| ::
               found[k].id in r0 && found[k].id in r1 && Seen(r0[found[k].id], r1[found[k].id], found[k].row)
    ensures forall k | 0 <= k < |found| ::
              found[k].id in r0 && found[k].id in r2 && Seen(r0[found[k].id], r2[found[k].id], found[k].row)
  {
    hide Extends, Seen;
    forall k | 0 <= k < |found|
      ensures found[k].id in r2 && Seen(r0[found[k].id], r2[found[k].id], found[k].row)
    {
      StillSeen(r0, r1, r2, found[k].id, found[k].row);
    }
  }

  /** The rows of the table as it is now are the last ones of their runs. */
  lemma RowsInRuns(w: World, before: map<Id, seq<Cell>>, ids: seq<Id>, table: Table)
    requires w.Valid() && Extends(before, w.runs) && table == TableOf(w.cells) && forall k | 0 <= k < |ids| :: ids[k] in table
    ensures forall k | 0 <= k < |ids| :: ids[k] in before && ids[k] in w.runs && Seen(before[ids[k]], w.runs[ids[k]], table[ids[k]])
  {
    forall k | 0 <= k < |ids|
      ensures ids[k] in before && ids[k] in w.runs && Seen(before[ids[k]], w.runs[ids[k]], table[ids[k]])
    {
      var run := w.runs[ids[k]];
      assert |run| > 0;
      assert run[|run| - 1].row == Some(table[ids[k]]);
    }
  }

  class World {
    var cells: map<Id, Cell>
    ghost var runs: map<Id, seq<Cell>>
    /** No other actor takes a step. */
    const alone: bool
    /** No port call fails. */
    const reliable: bool

    ghost predicate Valid()
      reads this
    {
      runs.Keys == cells.Keys &&
      forall id | id in cells :: IsRun(runs[id]) && runs[id][|runs[id]| - 1] == cells[id]
    }

    ghost predicate At(id: Id, me: ActorId, pc: Pc)
      reads this
    {
      id in cells && me in cells[id].actors && cells[id].actors[me] == pc
    }

    constructor (ids: set<Id>, alone: bool, reliable: bool)
      ensures Valid() && cells == map id | id in ids :: EMPTY
      ensures this.alone == alone && this.reliable == reliable
    {
      cells := map id | id in ids :: EMPTY;
      runs := map id | id in ids :: [EMPTY];
      this.alone := alone;
      this.reliable := reliable;
    }

    /**
     * Any number of steps of other actors on any notification. Callers see only the contract, which
     * admits every such schedule (OthersKeepMine); taking no step is one of them.
     */
    method Interfere(me: ActorId)
      requires Valid()
      modifies this
      ensures Valid() && Extends(old(runs), runs)
      ensures AllSameFor(me, old(cells), cells)
      ensures alone ==> cells == old(cells)
    {
    }

    /** One step of the protocol. */
    method Take(id: Id, e: Event)
      requires Valid() && id in cells && Apply(cells[id], e).Some?
      modifies this
      ensures Valid() && Extends(old(runs), runs) && |runs[id]| == |old(runs)[id]| + 1
      ensures cells == old(cells)[id := Apply(old(cells)[id], e).value]
    {
      hide Apply, IsRun;
      var c' := Apply(cells[id], e).value;
      RunExtend(runs[id], c');
      runs := runs[id := runs[id] + [c']];
      cells := cells[id := c'];
    }

    /** The fate of a write, which nobody chooses. */
    method AnyAck() returns (ack: Ack)
      ensures reliable ==> ack.Done?
    {
      var committed, acked := *, *;
      ack := if reliable || (committed && acked) then Done else if committed then Lost else Refused;
    }

    method AnyFailure() returns (ok: bool)
      ensures reliable ==> ok
    {
      ok := *;
      ok := ok || reliable;
    }

    /** Others take their steps, and then `me` takes this one; `mid` is the cell in which it is taken. */
    method Perform(id: Id, me: ActorId, e: Event) returns (ghost mid: Cell)
      requires Valid() && id in cells && me in cells[id].actors && e.a == me
      requires Enabled(cells[id].actors[me], e)
      modifies this
      ensures Valid() && Extends(old(runs), runs) && Elsewhere(id, me, alone, old(cells), cells)
      ensures SameFor(me, old(cells)[id], mid) && Apply(mid, e) == Some(cells[id])
      ensures alone ==> mid == old(cells)[id]
      ensures |old(runs)[id]| < |runs[id]| && runs[id][|runs[id]| - 1] == cells[id]
    {
      Interfere(me);
      mid := cells[id];
      EnabledApplies(mid, e);
      label before:
      Take(id, e);
      ExtendsTransitively(old(runs), old@before(runs), runs);
    }

    // -------------------------------------------------------------------------------------------
    // The repository
    // -------------------------------------------------------------------------------------------

    /** The atomic claim: the row as claimed, or why there is none. */
    method ClaimForProcessing(id: Id, me: ActorId, now: Nanos) returns (n: Notification?, err: Error)
      requires Valid() && At(id, me, Claiming)
      modifies this
      ensures Valid() && Extends(old(runs), runs) && Elsewhere(id, me, alone, old(cells), cells)
      ensures err.Nil? <==> n != null
      ensures n != null ==> fresh(n) && At(id, me, LoggingProcessing(n.Snapshot())) && n.status == Processing && n.attempts >= 1
      ensures n != null ==> cells[id].row == Some(n.Snapshot())
      ensures n != null ==> n.updatedAt == now
      ensures alone && n != null ==>
                && old(cells)[id].row.Some? && old(cells)[id].row.value.status in {Queued, Retrying}
                && var r := old(cells)[id].row.value;
                   n.Snapshot() == Row(Processing, r.attempts + 1, r.lastError, r.nextRetryAt, r.scheduledAt, r.createdAt, now)
      ensures alone && reliable ==>
                var row := old(cells)[id].row;
                && (row.None? ==> err.NotFound?)
                && (row.Some? && row.value.status !in {Queued, Retrying} ==> err.AlreadyClaimed?)
                && (row.Some? && row.value.status in {Queued, Retrying} && row.value.attempts < 0x7fff_ffff ==> n != null)
      ensures n == null ==> At(id, me, Stopped(err)) && err in {PortFailure, NotFound, AlreadyClaimed}
    {
      var ack := AnyAck();
      hide Apply, IsRun;
      ghost var mid := Perform(id, me, Claim(me, now, ack));
      ClaimEffect(mid, me, now, ack, cells[id]);
      match cells[id].actors[me]
      case LoggingProcessing(row) =>
        n := new Notification(row);
        err := Nil;
      case Stopped(why) =>
        n, err := null, why;
    }

    /** A status write guarded by the expected source status. */
    method UpdateStatus(id: Id, me: ActorId, n: Notification, source: Status, ghost pc: Pc, ghost next: Pc) returns (err: Error)
      requires Valid() && At(id, me, pc) && WriteOf(pc, n.updatedAt) == Some(Write(n.Snapshot(), source, next))
      modifies this
      ensures Valid() && Extends(old(runs), runs) && Elsewhere(id, me, alone, old(cells), cells)
      ensures At(id, me, if err.Nil? then next else Stopped(err))
      ensures err in {Nil, PortFailure, ConcurrentUpdate} && (reliable ==> !err.PortFailure?)
      ensures err.Nil? ==> Carries(cells[id].row, n.Snapshot()) && Landed(old(runs)[id], runs[id], n.Snapshot())
      ensures err.Nil? ==>
                && cells[id].row.Some?
                && var r := cells[id].row.value;
                   r == Row(n.status, n.attempts, n.lastError, n.nextRetryAt, r.scheduledAt, r.createdAt, n.updatedAt)
      ensures alone && err.Nil? ==>
                && old(cells)[id].row.Some? && old(cells)[id].row.value.status == source
                && cells[id].row.value.scheduledAt == old(cells)[id].row.value.scheduledAt
                && cells[id].row.value.createdAt == old(cells)[id].row.value.createdAt
      ensures alone && err.ConcurrentUpdate? ==>
                cells[id].row == old(cells)[id].row && (cells[id].row.Some? ==> cells[id].row.value.status != source)
      ensures SameCounted(me, old(cells)[id], cells[id])
      ensures alone ==> cells[id].row == old(cells)[id].row
                        || (GuardHolds(old(cells)[id].row, source) && cells[id].row == Some(Written(old(cells)[id].row.value, n.Snapshot())))
      ensures alone && err.Nil? ==> GuardHolds(old(cells)[id].row, source) && cells[id].row == Some(Written(old(cells)[id].row.value, n.Snapshot()))
      ensures alone && reliable && GuardHolds(old(cells)[id].row, source) ==> err.Nil?
    {
      var ack := AnyAck();
      hide Apply, IsRun, WriteOf, Written, Carries;
      ghost var mid := Perform(id, me, Update(me, n.updatedAt, ack));
      UpdateEffect(mid, me, n.updatedAt, ack, cells[id]);
      ColumnsCarried(cells[id].row, n.Snapshot());
      match cells[id].actors[me]
      case Stopped(why) => err := why;
      case _ => err := Nil;
    }

    /** A row read by id. `now` is the clock read next, with which the reader will try to cancel. */
    method Fetch(id: Id, me: ActorId, now: Nanos) returns (n: Notification?, err: Error)
      requires Valid() && At(id, me, Reading)
      modifies this
      ensures Valid() && Extends(old(runs), runs) && Elsewhere(id, me, alone, old(cells), cells)
      ensures err.Nil? <==> n != null
      ensures n != null ==> fresh(n) && At(id, me, AfterGet(n.Snapshot(), now)) && cells[id].row == Some(n.Snapshot())
      ensures n == null ==> At(id, me, Stopped(err)) && err in {PortFailure, NotFound}
      ensures alone ==> cells[id].row == old(cells)[id].row
      ensures alone && reliable && old(cells)[id].row.Some? ==> n != null
    {
      var ok := AnyFailure();
      hide Apply, IsRun, AfterGet, Extends, Elsewhere, Valid;
      ghost var mid := Perform(id, me, Get(me, now, ok));
      GetEffect(mid, me, now, ok, cells[id]);
      if ok && cells[id].row.Some? {
        n := new Notification(cells[id].row.value);
        err := Nil;
      } else {
        n, err := null, if ok then NotFound else PortFailure;
      }
    }

    /** The INSERT of a new row; it fails when the id is taken. */
    method Create(id: Id, me: ActorId, n: Notification) returns (err: Error)
      requires Valid() && At(id, me, Inserting(n.Snapshot()))
      modifies this
      ensures Valid() && Extends(old(runs), runs) && Elsewhere(id, me, alone, old(cells), cells)
      ensures At(id, me, if err.Nil? then LoggingCreated(n.Snapshot()) else Stopped(PortFailure))
      ensures err in {Nil, PortFailure}
      ensures err.Nil? ==> cells[id].row == Some(n.Snapshot())
      ensures alone && reliable && old(cells)[id].row.None? ==> err.Nil?
      ensures alone ==> cells[id].row in {old(cells)[id].row, Some(n.Snapshot())}
    {
      var ack := AnyAck();
      hide Apply, IsRun;
      ghost var mid := Perform(id, me, Insert(me, ack));
      InsertEffect(mid, me, ack, cells[id]);
      err := if cells[id].actors[me].Stopped? then PortFailure else Nil;
    }

    // -------------------------------------------------------------------------------------------
    // The log, the broadcaster and the queue
    // -------------------------------------------------------------------------------------------

    method AppendLog(id: Id, me: ActorId, event: LogEvent, ghost pc: Pc) returns (err: Error)
      requires Valid() && At(id, me, pc) && EventOf(pc) == Some(event)
      modifies this
      ensures Valid() && Extends(old(runs), runs) && Elsewhere(id, me, alone, old(cells), cells)
      ensures At(id, me, if err.Nil? then AfterAppend(pc) else Stopped(PortFailure))
      ensures err in {Nil, PortFailure} && (reliable ==> err.Nil?)
      ensures err.Nil? ==> Logged(runs[id], event)
      ensures alone ==> cells[id].row == old(cells)[id].row
      ensures me in cells[id].h.stuckCounted <==>
              me in old(cells)[id].h.stuckCounted || (pc.LoggingTimeout? && err.Nil?)
      ensures me in cells[id].h.requeueCounted <==> me in old(cells)[id].h.requeueCounted
    {
      var ack := AnyAck();
      hide Apply, IsRun;
      ghost var mid := Perform(id, me, Append(me, ack));
      AppendEffect(mid, me, ack, cells[id]);
      err := if ack.Done? then Nil else PortFailure;
    }

    method Broadcast(id: Id, me: ActorId, ghost pc: Pc) returns (err: Error)
      requires Valid() && At(id, me, pc) && (pc.PublishingProcessing? || pc.PublishingOutcome?)
      modifies this
      ensures Valid() && Extends(old(runs), runs) && Elsewhere(id, me, alone, old(cells), cells)
      ensures At(id, me, if !err.Nil? then Stopped(PortFailure)
                         else if pc.PublishingProcessing? then AskingLimiter(pc.n) else Stopped(pc.cause))
      ensures err.Nil? ==> cells[id].h.broadcasts > old(cells)[id].h.broadcasts
      ensures err in {Nil, PortFailure} && (reliable ==> err.Nil?)
      ensures alone ==> cells[id].row == old(cells)[id].row
    {
      var ok := AnyFailure();
      hide Apply, IsRun;
      ghost var mid := Perform(id, me, Publish(me, ok));
      OtherEffects(mid, me, Publish(me, ok), cells[id]);
      err := if ok then Nil else PortFailure;
    }

    method EnqueueTask(id: Id, me: ActorId, ghost pc: Pc) returns (err: Error)
      requires Valid() && At(id, me, pc) && (pc.Enqueuing? || pc.EnqueuingRequeued? || pc.Reenqueuing?)
      modifies this
      ensures Valid() && Extends(old(runs), runs) && Elsewhere(id, me, alone, old(cells), cells)
      ensures At(id, me, if !err.Nil? then Stopped(PortFailure) else if pc.Enqueuing? then MarkingQueued(pc.n) else Stopped(Nil))
      ensures err.Nil? ==> cells[id].h.tasks > old(cells)[id].h.tasks
      ensures err in {Nil, PortFailure} && (reliable ==> err.Nil?)
      ensures alone ==> cells[id].row == old(cells)[id].row
      ensures me in cells[id].h.requeueCounted <==>
              me in old(cells)[id].h.requeueCounted || (pc.EnqueuingRequeued? && err.Nil?)
      ensures me in cells[id].h.stuckCounted <==> me in old(cells)[id].h.stuckCounted
    {
      var ok := AnyFailure();
      hide Apply, IsRun;
      ghost var mid := Perform(id, me, Enqueue(me, ok));
      EnqueueEffect(mid, me, ok, cells[id]);
      err := if ok then Nil else PortFailure;
    }

    /** The best-effort removal of the queued task. */
    method CancelTask(id: Id, me: ActorId) returns (err: Error)
      requires Valid() && At(id, me, DroppingTask)
      modifies this
      ensures Valid() && Extends(old(runs), runs) && Elsewhere(id, me, alone, old(cells), cells)
      ensures err.Nil? ==> cells[id].h.hints > old(cells)[id].h.hints
      ensures err in {Nil, PortFailure} && At(id, me, Stopped(err)) && (reliable ==> err.Nil?)
      ensures alone ==> cells[id].row == old(cells)[id].row
    {
      var ok := AnyFailure();
      hide Apply, IsRun;
      ghost var mid := Perform(id, me, DropTask(me, ok));
      OtherEffects(mid, me, DropTask(me, ok), cells[id]);
      err := if ok then Nil else PortFailure;
    }

    // -------------------------------------------------------------------------------------------
    // The limiter and the provider
    // -------------------------------------------------------------------------------------------

    method Allow(id: Id, me: ActorId, ghost n: Row) returns (allowed: bool, err: Error)
      requires Valid() && At(id, me, AskingLimiter(n))
      modifies this
      ensures Valid() && Extends(old(runs), runs) && Elsewhere(id, me, alone, old(cells), cells)
      ensures At(id, me, if !err.Nil? then Stopped(PortFailure) else if allowed then ReadyToSend(n) else Rescheduling(n))
      ensures err in {Nil, PortFailure} && (reliable ==> err.Nil?)
      ensures alone ==> cells[id].row == old(cells)[id].row
    {
      var ok := AnyFailure();
      allowed := *;
      var verdict := if !ok then Unavailable else if allowed then Allowed else Denied;
      hide Apply, IsRun;
      ghost var mid := Perform(id, me, Limit(me, verdict));
      LimitEffect(mid, me, verdict, cells[id]);
      err := if ok then Nil else PortFailure;
    }

    /** The provider call: others may take steps while the message is on its way. */
    method Send(id: Id, me: ActorId, ghost n: Row) returns (result: DeliveryResult)
      requires Valid() && At(id, me, ReadyToSend(n))
      modifies this
      ensures Valid() && Extends(old(runs), runs) && Elsewhere(id, me, alone, old(cells), cells)
      ensures At(id, me, Applying(n, result))
      ensures alone ==> cells[id].row == old(cells)[id].row
    {
      result := *;
      hide Apply, IsRun, Extends, Elsewhere, Valid;
      ghost var mid := Perform(id, me, SendStart(me));
      OtherEffects(mid, me, SendStart(me), cells[id]);
      label sent:
      ghost var later := Perform(id, me, SendReturn(me, result));
      OtherEffects(later, me, SendReturn(me, result), cells[id]);
      ExtendsTransitively(old(runs), old@sent(runs), runs);
      ElsewhereTransitively(id, me, alone, old(cells), old@sent(cells), cells);
    }

    // -------------------------------------------------------------------------------------------
    // The sweeps' SELECT
    // -------------------------------------------------------------------------------------------

    /** The rows one row of a sweep's result stands for: spawn there and hold a copy. */
    method Hold(id: Id, me: ActorId, sweep: Sweep, now: Nanos)
      requires Valid() && id in cells && (me in cells[id].actors ==> cells[id].actors[me].Stopped?)
      requires cells[id].row.Some? && Eligible(sweep, cells[id].row.value, now)
      modifies this
      ensures Valid() && Extends(old(runs), runs)
      ensures cells == old(cells)[id := Goto(old(cells)[id], me, AfterSelect(sweep, old(cells)[id].row.value, now))]
    {
      hide IsRun, Eligible, Apply, AfterSelect, Extends, Goto, Valid;
      ghost var c, r := cells[id], cells[id].row.value;
      SelectEffect(c, me, sweep, r, now);
      Take(id, Spawn(me, Scanning));
      label spawned:
      Take(id, Event.Select(me, sweep, now));
      ExtendsTransitively(old(runs), old@spawned(runs), runs);
      assert cells == old(cells)[id := cells[id]];
    }

    /**
     * One statement returns up to `limit` eligible rows, oldest first, skipping rows that another
     * reconciler has locked; `me` then holds a copy of each. The locks end with the statement.
     */
    method Select(sweep: Sweep, me: ActorId, now: Nanos, limit: nat) returns (found: seq<Found>, err: Error)
      requires Valid() && Idle(me, cells)
      modifies this
      ensures Valid() && Extends(old(runs), runs) && cells.Keys == old(cells).Keys
      ensures forall k, l | 0 <= k < l < |found| :: found[k].id != found[l].id
      ensures forall k | 0 <= k < |found| ::
                At(found[k].id, me, AfterSelect(sweep, found[k].row, now)) && found[k].row.status == Target(sweep)
      ensures forall k | 0 <= k < |found| ::
                && Eligible(sweep, found[k].row, now) && found[k].id in old(runs) && found[k].id in runs
                && Seen(old(runs)[found[k].id], runs[found[k].id], found[k].row)
      ensures forall id | id in cells && id !in IdsOf(found) && me in cells[id].actors :: cells[id].actors[me].Stopped?
      ensures forall id | id in cells :: SameCounted(me, old(cells)[id], cells[id])
      ensures err in {Nil, PortFailure} && (!err.Nil? ==> found == []) && (reliable ==> err.Nil?) && |found| <= limit
      ensures alone ==> TableOf(cells) == TableOf(old(cells))
      ensures alone ==> forall k | 0 <= k < |found| :: found[k].id in cells && cells[found[k].id].row == Some(found[k].row)
      ensures alone && err.Nil? ==> IsSelection(TableOf(cells), sweep, now, limit, IdsOf(found))
    {
      hide IsRun, Apply, Eligible, IsSelection, AfterSelect, Extends, Valid, Idle, TableOf, SameCounted, AllSameFor, Seen, SameFor, At, IdsOf;
      found, err := [], Nil;
      Interfere(me);
      IdleKept(me, old(cells), cells);
      assert cells.Keys == old(cells).Keys by { SameKeys(me, old(cells), cells); }
      var ok := AnyFailure();
      if !ok {
        err := PortFailure;
        IdleMeansStopped(me, cells);
        return;
      }
      label started:
      var ids := Choose(sweep, now, limit);
      RowsInRuns(this, old(runs), ids, TableOf(cells));
      found := HoldAll(ids, TableOf(cells), me, sweep, now);
      ExtendsTransitively(old(runs), old@started(runs), runs);
      assert IdsOf(found) == ids;
      AllStillSeen(old(runs), old@started(runs), runs, found);
      SameTable(old@started(cells), cells);
      CountedKept(me, old(cells), old@started(cells), cells);
      IdleMeansStopped(me, old@started(cells));
    }

    /** The rows the statement returns: oldest first among those that no other statement has locked. */
    method Choose(sweep: Sweep, now: Nanos, limit: nat) returns (ids: seq<Id>)
      ensures |ids| <= limit
      ensures forall k | 0 <= k < |ids| ::
                ids[k] in TableOf(cells) && Eligible(sweep, TableOf(cells)[ids[k]], now) && TableOf(cells)[ids[k]].status == Target(sweep)
      ensures forall k, l | 0 <= k < l < |ids| :: ids[k] != ids[l]
      ensures alone ==> IsSelection(TableOf(cells), sweep, now, limit, ids)
    {
      hide TableOf, Eligible, IsSelection;
      var table := TableOf(cells);
      var unlocked: set<Id> := *;
      unlocked := if alone then table.Keys else unlocked;
      var visible := map id | id in table && id in unlocked :: table[id];
      assert alone ==> visible == table;
      ids := OldestFirst(visible, sweep, now, limit);
      SelectionFacts(visible, sweep, now, limit, ids);
    }

    method HoldAll(ids: seq<Id>, table: Table, me: ActorId, sweep: Sweep, now: Nanos) returns (found: seq<Found>)
      requires Valid() && Idle(me, cells)
      requires forall k, l | 0 <= k < l < |ids| :: ids[k] != ids[l]
      requires table == TableOf(cells)
      requires forall k | 0 <= k < |ids| :: ids[k] in table && Eligible(sweep, table[ids[k]], now)
      modifies this
      ensures Valid() && Extends(old(runs), runs) && cells.Keys == old(cells).Keys
      ensures |found| == |ids| && forall k | 0 <= k < |ids| :: found[k] == Found(ids[k], table[ids[k]])
      ensures forall k | 0 <= k < |ids| :: At(ids[k], me, AfterSelect(sweep, table[ids[k]], now))
      ensures forall id | id in cells :: cells[id].row == old(cells)[id].row && cells[id].h == old(cells)[id].h
      ensures forall id | id in cells && id !in ids :: cells[id] == old(cells)[id]
    {
      hide IsRun, Apply, Eligible, AfterSelect, Extends, Valid, TableOf, Held, Goto;
      found := [];
      var k := 0;
      HeldStart(cells, me, ids, table, sweep, now);
      ExtendsItself(runs);
      while k < |ids|
        invariant 0 <= k <= |ids| && |found| == k
        invariant Valid() && Extends(old(runs), runs)
        invariant forall j | 0 <= j < k :: found[j] == Found(ids[j], table[ids[j]])
        invariant Held(old(cells), cells, me, ids, table, sweep, now, k)
      {
        label taking:
        HeldNext(old(cells), cells, me, ids, table, sweep, now, k);
        Hold(ids[k], me, sweep, now);
        ExtendsTransitively(old(runs), old@taking(runs), runs);
        found := found + [Found(ids[k], table[ids[k]])];
        k := k + 1;
      }
      HeldEnd(old(cells), cells, me, ids, table, sweep, now);
    }
  }

  lemma HasRun(w: World, id: Id)
    requires w.Valid() && id in w.cells
    ensures id in w.runs
  {
  }

  lemma RunAt(w: World, id: Id, me: ActorId, pc: Pc)
    requires w.Valid() && w.At(id, me, pc)
    ensures id in w.cells && id in w.runs
  {
  }
}
