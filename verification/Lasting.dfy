/** What has happened to a notification once stays true of it: its log only grows, and the last word on its row is final. */
module Lasting {
  import opened Collections
  import opened Domain
  import opened Protocol
  import opened Guarantees
  import opened Ports

  lemma LogStep(c: Cell, e: Event, c': Cell, event: LogEvent)
    requires Apply(c, e) == Some(c')
    ensures c'.h.log[event] >= c.h.log[event]
  {
    hide WriteOf, AfterAppend, AfterGet, AfterSelect, Written;
  }

  /** No entry ever leaves the log. */
  lemma {:induction false} LogOnlyGrows(run: seq<Cell>, i: nat, j: nat, event: LogEvent)
    requires IsRun(run) && i <= j < |run|
    ensures run[i].h.log[event] <= run[j].h.log[event]
    decreases j
  {
    if i < j {
      LogOnlyGrows(run, i, j - 1, event);
      RunStep(run, j - 1);
      hide Apply;
      var e :| Apply(run[j - 1], e) == Some(run[j]);
      LogStep(run[j - 1], e, run[j], event);
    }
  }

  lemma CountedSetsStep(c: Cell, e: Event, c': Cell)
    requires Apply(c, e) == Some(c')
    ensures c.h.stuckCounted <= c'.h.stuckCounted && c.h.requeueCounted <= c'.h.requeueCounted
  {
    hide WriteOf, AfterAppend, AfterGet, AfterSelect, Written;
  }

  /** A reconciler pass that counted a notification has counted it for good. */
  lemma {:induction false} CountedForGood(run: seq<Cell>, i: nat, j: nat)
    requires IsRun(run) && i <= j < |run|
    ensures run[i].h.stuckCounted <= run[j].h.stuckCounted && run[i].h.requeueCounted <= run[j].h.requeueCounted
    decreases j
  {
    if i < j {
      CountedForGood(run, i, j - 1);
      RunStep(run, j - 1);
      hide Apply;
      var e :| Apply(run[j - 1], e) == Some(run[j]);
      CountedSetsStep(run[j - 1], e, run[j]);
    }
  }

  lemma SignalsStep(c: Cell, e: Event, c': Cell)
    requires Apply(c, e) == Some(c')
    ensures c.h.tasks <= c'.h.tasks && c.h.broadcasts <= c'.h.broadcasts && c.h.hints <= c'.h.hints
  {
    hide WriteOf, EventOf, AfterAppend, AfterGet, AfterSelect, Written;
  }

  lemma {:induction false} SignalsOnlyGrow(run: seq<Cell>, i: nat, j: nat)
    requires IsRun(run) && i <= j < |run|
    ensures run[i].h.tasks <= run[j].h.tasks && run[i].h.broadcasts <= run[j].h.broadcasts && run[i].h.hints <= run[j].h.hints
    decreases j
  {
    if i < j {
      SignalsOnlyGrow(run, i, j - 1);
      RunStep(run, j - 1);
      hide Apply;
      var e :| Apply(run[j - 1], e) == Some(run[j]);
      SignalsStep(run[j - 1], e, run[j]);
    }
  }

  lemma LastCell(w: World, id: Id)
    requires w.Valid() && id in w.cells
    ensures id in w.runs && w.runs[id] != [] && w.runs[id][|w.runs[id]| - 1] == w.cells[id]
  {
    hide Apply, Next;
  }

  /** No task, broadcast or hint is undone: a later moment of a world has had at least as many. */
  lemma SignalsKept(w: World, id: Id, before: map<Id, seq<Cell>>, c: Cell)
    requires w.Valid() && Extends(before, w.runs) && id in before && id in w.cells
    requires before[id] != [] && before[id][|before[id]| - 1] == c
    ensures c.h.tasks <= w.cells[id].h.tasks && c.h.broadcasts <= w.cells[id].h.broadcasts && c.h.hints <= w.cells[id].h.hints
  {
    hide Apply, IsRun;
    var run, i := w.runs[id], |before[id]| - 1;
    assert run[i] == run[..|before[id]|][i];
    SignalsOnlyGrow(run, i, |run| - 1);
  }

  /** An event that was logged once is in the log, and only once unless it can recur. */
  lemma LoggedForGood(w: World, id: Id, event: LogEvent)
    requires w.Valid() && id in w.cells && Logged(w.runs[id], event)
    ensures w.cells[id].h.log[event] >= 1
    ensures event != LogProcessing && event != LogRetrying ==> w.cells[id].h.log[event] == 1
  {
    hide Apply;
    var run := w.runs[id];
    var i :| 0 <= i < |run| && run[i].h.log[event] >= 1;
    LogOnlyGrows(run, i, |run| - 1, event);
    TrailAgreesWithRow(run, |run| - 1);
  }

  /** A row that was delivered, failed or cancelled once still carries what was written then. */
  lemma LandedForGood(w: World, id: Id, before: seq<Cell>, n: Row)
    requires w.Valid() && id in w.cells && Landed(before, w.runs[id], n) && IsTerminal(n.status)
    ensures Carries(w.cells[id].row, n) && w.cells[id].row.value.status == n.status
  {
    hide Apply;
    var run := w.runs[id];
    var i :| |before| <= i < |run| && Carries(run[i].row, n);
    TerminalRowsAreFrozen(run, i, |run| - 1);
  }

  // ---------------------------------------------------------------------------------------------
  // Which tasks have been put on the queue
  // ---------------------------------------------------------------------------------------------

  /** Each run ends with the cell of its notification. */
  ghost predicate RunsEnd(runs: map<Id, seq<Cell>>, cells: map<Id, Cell>) {
    runs.Keys == cells.Keys && forall id | id in cells :: runs[id] != [] && runs[id][|runs[id]| - 1] == cells[id]
  }

  lemma EachRunEnds(w: World)
    requires w.Valid()
    ensures RunsEnd(w.runs, w.cells)
  {
    hide Apply, Next;
  }

  /** Tasks of the first k notifications have been put on the queue since. */
  ghost predicate Tasked(before: map<Id, Cell>, cells: map<Id, Cell>, ids: seq<Id>, k: nat) {
    forall j | 0 <= j < |ids| ::
      && ids[j] in before && ids[j] in cells && before[ids[j]].h.tasks <= cells[ids[j]].h.tasks
      && (j < k ==> before[ids[j]].h.tasks < cells[ids[j]].h.tasks)
  }

  lemma TaskedStart(cells: map<Id, Cell>, ids: seq<Id>)
    requires forall j | 0 <= j < |ids| :: ids[j] in cells
    ensures Tasked(cells, cells, ids, 0)
  {
  }

  lemma TaskedStep(before: map<Id, Cell>, c1: map<Id, Cell>, c2: map<Id, Cell>, ids: seq<Id>, k: nat, me: ActorId, alone: bool, ok: bool)
    requires Tasked(before, c1, ids, k) && k < |ids| && Elsewhere(ids[k], me, alone, c1, c2)
    requires ok ==> ids[k] in c1 && ids[k] in c2 && c1[ids[k]].h.tasks < c2[ids[k]].h.tasks
    requires ids[k] in c1 && ids[k] in c2 && c1[ids[k]].h.tasks <= c2[ids[k]].h.tasks
    ensures Tasked(before, c2, ids, if ok then k + 1 else k)
  {
    forall j | 0 <= j < |ids|
      ensures ids[j] in c2 && c1[ids[j]].h.tasks <= c2[ids[j]].h.tasks
    {
      if ids[j] != ids[k] {
        assert SameFor(me, c1[ids[j]], c2[ids[j]]);
      }
    }
  }

  /** Nothing that was put on the queue before a moment is undone by then. */
  lemma TaskedSince(w: World, before: map<Id, seq<Cell>>, cells: map<Id, Cell>, ids: seq<Id>)
    requires w.Valid() && Extends(before, w.runs) && RunsEnd(before, cells) && w.cells.Keys == cells.Keys
    requires forall j | 0 <= j < |ids| :: ids[j] in cells
    ensures Tasked(cells, w.cells, ids, 0)
  {
    hide World.Valid;
    forall j | 0 <= j < |ids|
      ensures cells[ids[j]].h.tasks <= w.cells[ids[j]].h.tasks
    {
      SignalsKept(w, ids[j], before, cells[ids[j]]);
    }
  }

  lemma TaskedMeans(c0: map<Id, Cell>, c1: map<Id, Cell>, c2: map<Id, Cell>, ids: seq<Id>, k: nat)
    requires Tasked(c0, c1, ids, 0) && Tasked(c1, c2, ids, k)
    ensures forall j | 0 <= j < k && j < |ids| :: ids[j] in c0 && ids[j] in c2 && c0[ids[j]].h.tasks < c2[ids[j]].h.tasks
  {
  }

  /** A task of each of these notifications has been put on the queue since. */
  ghost predicate AllTasked(before: map<Id, Cell>, cells: map<Id, Cell>, ids: set<Id>) {
    forall id | id in ids :: id in before && id in cells && before[id].h.tasks < cells[id].h.tasks
  }

  lemma NoneTasked(before: map<Id, Cell>, cells: map<Id, Cell>)
    ensures AllTasked(before, cells, {})
  {
  }

  lemma FirstTasked(before: map<Id, Cell>, cells: map<Id, Cell>, ids: seq<Id>, k: nat)
    requires Tasked(before, cells, ids, k) && k <= |ids|
    ensures AllTasked(before, cells, SetOf(ids[..k]))
  {
    forall id | id in SetOf(ids[..k])
      ensures id in before && id in cells && before[id].h.tasks < cells[id].h.tasks
    {
      var j :| 0 <= j < |ids[..k]| && ids[..k][j] == id;
      assert ids[j] == id;
    }
  }

  lemma CellInRun(w: World, runs: map<Id, seq<Cell>>, cells: map<Id, Cell>, id: Id) returns (i: nat)
    requires w.Valid() && Extends(runs, w.runs) && RunsEnd(runs, cells) && id in cells
    ensures id in w.runs && id in runs && i == |runs[id]| - 1 < |w.runs[id]| && w.runs[id][i] == cells[id] && IsRun(w.runs[id])
    ensures id in w.cells && w.cells[id] == w.runs[id][|w.runs[id]| - 1]
  {
    i := |runs[id]| - 1;
    assert w.runs[id][i] == w.runs[id][..|runs[id]|][i];
  }

  lemma ShorterRun(runs: map<Id, seq<Cell>>, runs': map<Id, seq<Cell>>, id: Id)
    requires Extends(runs, runs') && id in runs
    ensures id in runs' && |runs[id]| <= |runs'[id]|
  {
  }

  lemma TaskThroughout(w: World, r0: map<Id, seq<Cell>>, c0: map<Id, Cell>, r1: map<Id, seq<Cell>>, c1: map<Id, Cell>,
                       r2: map<Id, seq<Cell>>, c2: map<Id, Cell>, id: Id)
    requires w.Valid() && RunsEnd(r0, c0) && RunsEnd(r1, c1) && RunsEnd(r2, c2)
    requires Extends(r0, r1) && Extends(r1, r2) && Extends(r2, w.runs)
    requires id in c0 && id in c1 && id in c2 && c1[id].h.tasks < c2[id].h.tasks
    ensures id in w.cells && c0[id].h.tasks < w.cells[id].h.tasks
  {
    hide World.Valid, Extends, IsRun;
    ExtendsTransitively(r1, r2, w.runs);
    ExtendsTransitively(r0, r1, w.runs);
    var i0 := CellInRun(w, r0, c0, id);
    var i1 := CellInRun(w, r1, c1, id);
    var i2 := CellInRun(w, r2, c2, id);
    hide RunsEnd;
    ShorterRun(r0, r1, id);
    SignalsOnlyGrow(w.runs[id], i0, i1);
    SignalsOnlyGrow(w.runs[id], i2, |w.runs[id]| - 1);
  }

  lemma SameNotifications(r0: map<Id, seq<Cell>>, c0: map<Id, Cell>, r1: map<Id, seq<Cell>>, c1: map<Id, Cell>)
    requires RunsEnd(r0, c0) && RunsEnd(r1, c1) && Extends(r0, r1)
    ensures c0.Keys == c1.Keys
  {
  }

  /** What was put on the queue in part of a stretch was in all of it. */
  lemma TaskedThroughout(w: World, r0: map<Id, seq<Cell>>, c0: map<Id, Cell>, r1: map<Id, seq<Cell>>, c1: map<Id, Cell>,
                         r2: map<Id, seq<Cell>>, c2: map<Id, Cell>, ids: set<Id>)
    requires w.Valid() && RunsEnd(r0, c0) && RunsEnd(r1, c1) && RunsEnd(r2, c2)
    requires Extends(r0, r1) && Extends(r1, r2) && Extends(r2, w.runs) && AllTasked(c1, c2, ids)
    ensures AllTasked(c0, w.cells, ids)
  {
    hide World.Valid, Extends, RunsEnd;
    SameNotifications(r0, c0, r1, c1);
    forall id | id in ids
      ensures id in c0 && id in w.cells && c0[id].h.tasks < w.cells[id].h.tasks
    {
      TaskThroughout(w, r0, c0, r1, c1, r2, c2, id);
    }
  }
}
