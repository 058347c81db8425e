/** What the guarantees about runs say about a world, and about any stretch of code that runs in it. */
module Assurance {
  import opened Collections
  import opened Domain
  import opened RetryPolicy
  import opened Protocol
  import opened Guarantees
  import opened Lasting
  import opened Ports
  import opened SafetyNet

  /** At every moment, every notification of a world has been sent and logged within bounds. */
  lemma WorldIsSafe(w: World, id: Id)
    requires w.Valid() && id in w.cells
    ensures var c := w.cells[id];
            && c.h.sends <= 5 && c.h.successes <= 1 && c.h.claims <= 5 + c.h.denials
            && c.h.log[LogDelivered] + c.h.log[LogFailed] + c.h.log[LogCancelled] <= 1
            && (c.row.Some? && c.row.value.status == Delivered ==> c.h.successes == 1)
            && (c.h.successes == 1 ==> c.row.Some? && (c.row.value.status == Failed <==> c.h.timeouts == 1))
  {
    hide Apply;
    var run := w.runs[id];
    BoundedSends(run, |run| - 1);
    TrailAgreesWithRow(run, |run| - 1);
    if run[|run| - 1].h.successes == 1 {
      AcceptedIsRecordedUnlessTimedOut(run, |run| - 1);
    }
    if run[|run| - 1].row.Some? && run[|run| - 1].row.value.status == Delivered {
      DeliveredMeansSent(run, |run| - 1);
    }
  }

  /** Whatever happened between two moments, a notification that was delivered or cancelled was not sent again. */
  lemma NothingMoreIsSent(before: seq<Cell>, w: World, id: Id)
    requires w.Valid() && id in w.cells && before != [] && before <= w.runs[id]
    ensures var c, c' := before[|before| - 1], w.cells[id];
            && (c.h.successes == 1 || (c.row.Some? && c.row.value.status == Cancelled) ==> c'.h.sends == c.h.sends)
            && (c.row.Some? && IsTerminal(c.row.value.status) ==> c'.row == c.row)
  {
    hide Apply, IsRun;
    var run, i := w.runs[id], |before| - 1;
    assert run[i] == before[i];
    if run[i].h.successes == 1 {
      AtMostOneDelivery(run, i, |run| - 1);
    }
    if run[i].row.Some? && IsTerminal(run[i].row.value.status) {
      TerminalRowsAreFrozen(run, i, |run| - 1);
      if run[i].row.value.status == Cancelled {
        CancellationIsFinal(run, i, |run| - 1);
      }
    }
  }

  /** The world as it was when a pass ended. */
  datatype Report = Report(pass: ActorId, cells: map<Id, Cell>, runs: map<Id, seq<Cell>>)

  /** The moment of a report is now or in the past of a world with these runs. */
  ghost predicate Reported(runs: map<Id, seq<Cell>>, r: Report) {
    && Extends(r.runs, runs) && r.cells.Keys == r.runs.Keys
    && forall id | id in r.cells :: r.runs[id] != [] && r.runs[id][|r.runs[id]| - 1] == r.cells[id]
  }

  /** The rows each pass counted in StuckProcessingFailed by the time it ended. */
  function StuckReported(reports: seq<Report>): seq<set<Id>> {
    seq(|reports|, i requires 0 <= i < |reports| => StuckCountedBy(reports[i].cells, reports[i].pass))
  }

  /** The rows each pass counted in OrphanedPendingReenqueued by the time it ended. */
  function RequeueReported(reports: seq<Report>): seq<set<Id>> {
    seq(|reports|, i requires 0 <= i < |reports| => RequeueCountedBy(reports[i].cells, reports[i].pass))
  }

  lemma ReportStands(w: World, r: Report)
    requires w.Valid() && Reported(w.runs, r)
    ensures StuckCountedBy(r.cells, r.pass) <= StuckCountedBy(w.cells, r.pass)
    ensures RequeueCountedBy(r.cells, r.pass) <= RequeueCountedBy(w.cells, r.pass)
  {
    hide IsRun;
    forall id | id in r.cells
      ensures id in w.cells
      ensures r.cells[id].h.stuckCounted <= w.cells[id].h.stuckCounted && r.cells[id].h.requeueCounted <= w.cells[id].h.requeueCounted
    {
      var run, i := w.runs[id], |r.runs[id]| - 1;
      assert run[i] == run[..|r.runs[id]|][i];
      CountedForGood(run, i, |run| - 1);
    }
  }

  /** A row that was moved to failed is failed, and one that was moved to queued is pending no more. */
  lemma MovedRows(w: World)
    requires w.Valid()
    ensures TimedOutRows(w.cells) == set id | id in w.cells && w.cells[id].row.Some? && w.cells[id].row.value.status == Failed
    ensures |RequeuedRows(w.cells)| <= |set id | id in w.cells && w.cells[id].row.Some? && w.cells[id].row.value.status != Pending|
  {
    hide Apply, Next;
    forall id | id in w.cells
      ensures w.cells[id].h.moves[(Processing, Failed)] == 1 <==> w.cells[id].row.Some? && w.cells[id].row.value.status == Failed
      ensures w.cells[id].h.moves[(Pending, Queued)] == 1 ==> w.cells[id].row.Some? && w.cells[id].row.value.status != Pending
    {
      assert |w.runs[id]| > 0;
      MovedAtMostOnce(w.runs[id], |w.runs[id]| - 1);
    }
    hide IsRun;
    var queued := set id | id in w.cells && w.cells[id].row.Some? && w.cells[id].row.value.status != Pending;
    assert RequeuedRows(w.cells) <= queued;
    SubsetSize(RequeuedRows(w.cells), queued);
    assert queued == set id | id in w.cells && w.cells[id].row.Some? && w.cells[id].row.value.status != Pending;
  }

  /**
   * The counters that any distinct passes of Reconcile.Execute in one world returned, each when it
   * ended, add up to at most the rows that have moved by now.
   */
  lemma PassesNeverOvercount(w: World, reports: seq<Report>)
    requires w.Valid()
    requires forall i, j | 0 <= i < j < |reports| :: reports[i].pass != reports[j].pass
    requires forall i | 0 <= i < |reports| :: Reported(w.runs, reports[i])
    ensures Total(StuckReported(reports)) <= |TimedOutRows(w.cells)|
    ensures Total(RequeueReported(reports)) <= |RequeuedRows(w.cells)|
    ensures Total(StuckReported(reports)) <=
            |set id | id in w.cells && w.cells[id].row.Some? && w.cells[id].row.value.status == Failed|
    ensures Total(RequeueReported(reports)) <=
            |set id | id in w.cells && w.cells[id].row.Some? && w.cells[id].row.value.status != Pending|
  {
    MovedRows(w);
    hide Apply, IsRun, StuckCountedBy, RequeueCountedBy, Reported;
    forall id | id in w.cells
      ensures Reached(w.cells[id])
    {
      assert IsRun(w.runs[id]);
    }
    forall i | 0 <= i < |reports|
      ensures StuckReported(reports)[i] <= StuckCountedBy(w.cells, reports[i].pass)
      ensures RequeueReported(reports)[i] <= RequeueCountedBy(w.cells, reports[i].pass)
    {
      ReportStands(w, reports[i]);
    }
    var passes := seq(|reports|, i requires 0 <= i < |reports| => reports[i].pass);
    CountersNeverExceedMoves(w.cells, passes, StuckReported(reports), RequeueReported(reports));
  }
}
