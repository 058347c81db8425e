/** The reconciler process: one pass at start-up and one at every tick, whatever becomes of the one before. */
module Ticker {
  import opened Collections
  import opened Domain
  import opened Sweeps
  import opened Tables
  import opened Protocol
  import opened Ports
  import opened SafetyNet
  import opened Assurance
  import opened Draining
  import Reconcile

  /** What a pass reports. */
  datatype LogLine = LogLine(orphanedPendingReenqueued: nat, stuckProcessingFailed: nat)

  function SumOrphaned(lines: seq<LogLine>): nat {
    if lines == [] then 0 else SumOrphaned(lines[..|lines| - 1]) + lines[|lines| - 1].orphanedPendingReenqueued
  }

  function SumStuck(lines: seq<LogLine>): nat {
    if lines == [] then 0 else SumStuck(lines[..|lines| - 1]) + lines[|lines| - 1].stuckProcessingFailed
  }

  // ---------------------------------------------------------------------------------------------
  // Every pass is an actor of its own
  // ---------------------------------------------------------------------------------------------

  /** The actors that have ever touched these notifications. */
  function Mentioned(cells: map<Id, Cell>): set<ActorId> {
    set id, a | id in cells && a in cells[id].actors.Keys + cells[id].h.stuckCounted + cells[id].h.requeueCounted :: a
  }

  lemma {:induction false} SomeoneElse(s: set<ActorId>) returns (a: ActorId)
    ensures forall b | b in s :: b < a
  {
    if s == {} {
      a := 0;
    } else {
      var b :| b in s;
      var other := SomeoneElse(s - {b});
      a := Max(other, b + 1);
      assert s == s - {b} + {b};
    }
  }

  lemma NewcomerIsIdle(cells: map<Id, Cell>, me: ActorId)
    requires me !in Mentioned(cells)
    ensures Idle(me, cells) && StuckCountedBy(cells, me) == {} && RequeueCountedBy(cells, me) == {}
  {
    assert forall id, a | id in cells && a in cells[id].actors.Keys + cells[id].h.stuckCounted + cells[id].h.requeueCounted ::
        a in Mentioned(cells);
  }

  // ---------------------------------------------------------------------------------------------
  // The loop
  // ---------------------------------------------------------------------------------------------

  lemma StillReported(runs: map<Id, seq<Cell>>, runs': map<Id, seq<Cell>>, reports: seq<Report>)
    requires Extends(runs, runs') && forall i | 0 <= i < |reports| :: Reported(runs, reports[i])
    ensures forall i | 0 <= i < |reports| :: Reported(runs', reports[i])
  {
    hide Extends;
    forall i | 0 <= i < |reports|
      ensures Reported(runs', reports[i])
    {
      ExtendsTransitively(reports[i].runs, runs, runs');
    }
  }

  lemma ReportedNow(w: World, me: ActorId)
    requires w.Valid()
    ensures Reported(w.runs, Report(me, w.cells, w.runs))
  {
    ExtendsItself(w.runs);
  }

  /** The passes so far, told as back-to-back calls of Execute from `start` to `table`. */
  ghost predicate Told(runs: seq<Run>, ticks: seq<Nanos>, start: Table, table: Table, lines: seq<LogLine>) {
    && |runs| == |ticks| && BackToBack(runs)
    && (forall k | 0 <= k < |ticks| :: runs[k].now == ticks[k])
    && (if runs == [] then table == start else runs[0].before == start && runs[|runs| - 1].after == table)
    && CountAll(OrphanedPending, runs) == SumOrphaned(lines) && CountAll(StuckProcessing, runs) == SumStuck(lines)
  }

  lemma NothingReported(table: Table)
    ensures SumStuck([]) == SumOrphaned([]) == 0 && Told([], [], table, table, [])
  {
  }

  lemma OneMoreReport(reports: seq<Report>, r: Report)
    ensures Total(StuckReported(reports + [r])) == Total(StuckReported(reports)) + |StuckCountedBy(r.cells, r.pass)|
    ensures Total(RequeueReported(reports + [r])) == Total(RequeueReported(reports)) + |RequeueCountedBy(r.cells, r.pass)|
  {
    hide StuckCountedBy, RequeueCountedBy;
    var stuck, requeued := StuckReported(reports + [r]), RequeueReported(reports + [r]);
    assert stuck[..|reports|] == StuckReported(reports);
    assert requeued[..|reports|] == RequeueReported(reports);
  }

  lemma OneMoreLine(lines: seq<LogLine>, line: LogLine)
    ensures SumOrphaned(lines + [line]) == SumOrphaned(lines) + line.orphanedPendingReenqueued
    ensures SumStuck(lines + [line]) == SumStuck(lines) + line.stuckProcessingFailed
  {
    assert (lines + [line])[..|lines|] == lines;
  }

  lemma OneMoreRun(runs: seq<Run>, ticks: seq<Nanos>, start: Table, table: Table, lines: seq<LogLine>, run: Run, line: LogLine)
    requires Told(runs, ticks, start, table, lines)
    requires run.before == table && Reconcile.Passed(run.before, run.after, run.orphans, run.stuck, run.now)
    requires line == LogLine(|run.orphans|, |run.stuck|)
    requires ticks != [] ==> ticks[|ticks| - 1] <= run.now
    ensures Told(runs + [run], ticks + [run.now], start, run.after, lines + [line])
  {
    hide Reconcile.Passed;
    OneMoreLine(lines, line);
    assert (runs + [run])[..|runs|] == runs;
  }

  predicate Nondecreasing(ticks: seq<Nanos>) {
    forall k, l | 0 <= k < l < |ticks| :: ticks[k] <= ticks[l]
  }

  /** The backlog of a moving sweep at the first tick is drained, and the log lines account for it. */
  ghost predicate DrainedBy(sweep: Sweep, start: Table, ticks: seq<Nanos>, table: Table, sum: nat)
    requires ticks != []
  {
    && IsDrained(sweep, start, ticks[0], |ticks|, table)
    && sum >= Min(100 * |ticks|, |EligibleIds(start, sweep, ticks[0])|)
  }

  lemma ToldDrains(runs: seq<Run>, ticks: seq<Nanos>, start: Table, table: Table, lines: seq<LogLine>)
    requires Told(runs, ticks, start, table, lines) && ticks != []
    ensures DrainedBy(OrphanedPending, start, ticks, table, SumOrphaned(lines))
    ensures DrainedBy(StuckProcessing, start, ticks, table, SumStuck(lines))
  {
    hide BackToBack, AreRuns, IsDrained, EligibleIds;
    BackToBackRuns(runs);
    RunsDrain(OrphanedPending, runs);
    RunsDrain(StuckProcessing, runs);
  }

  /** What draining means for the rows of a world. */
  lemma DrainedOnCells(before: map<Id, Cell>, ticks: seq<Nanos>, after: map<Id, Cell>, orphaned: nat, stuck: nat)
    requires ticks != []
    requires DrainedBy(OrphanedPending, TableOf(before), ticks, TableOf(after), orphaned)
    requires DrainedBy(StuckProcessing, TableOf(before), ticks, TableOf(after), stuck)
    ensures var rows := set id | id in before && before[id].row.Some? && before[id].row.value.status == Pending
                                 && before[id].row.value.createdAt + 300_000_000_000 < ticks[0];
            && orphaned >= Min(100 * |ticks|, |rows|)
            && |set id | id in rows && id in after && after[id].row.Some? && after[id].row.value.status != Pending|
               == Min(100 * |ticks|, |rows|)
    ensures var rows := set id | id in before && before[id].row.Some? && before[id].row.value.status == Processing
                                 && before[id].row.value.updatedAt + 300_000_000_000 < ticks[0];
            && stuck >= Min(100 * |ticks|, |rows|)
            && |set id | id in rows && id in after && after[id].row.Some? && after[id].row.value.status in {Delivered, Failed, Cancelled}|
               == Min(100 * |ticks|, |rows|)
  {
    Reconcile.EligibleCells(before, ticks[0]);
    var orphans, timedOut := EligibleIds(TableOf(before), OrphanedPending, ticks[0]), EligibleIds(TableOf(before), StuckProcessing, ticks[0]);
    hide EligibleIds;
    assert PastRows(OrphanedPending, orphans, TableOf(after)) ==
           set id | id in orphans && id in after && after[id].row.Some? && after[id].row.value.status != Pending;
    assert PastRows(StuckProcessing, timedOut, TableOf(after)) ==
           set id | id in timedOut && id in after && after[id].row.Some? && after[id].row.value.status in {Delivered, Failed, Cancelled};
  }

  /**
   * One pass. An error is swallowed, and what the pass counted is not reported, unless the error is
   * only that the process is being stopped.
   */
  method RunOnce(w: World, me: ActorId, now: Nanos) returns (line: Option<LogLine>, ghost orphans: seq<Id>, ghost stuck: seq<Id>)
    requires w.Valid() && Idle(me, w.cells) && StuckCountedBy(w.cells, me) == RequeueCountedBy(w.cells, me) == {}
    modifies w
    ensures w.Valid() && Extends(old(w.runs), w.runs)
    ensures line.Some? ==>
              && line.value.stuckProcessingFailed == |StuckCountedBy(w.cells, me)|
              && line.value.orphanedPendingReenqueued == |RequeueCountedBy(w.cells, me)|
    ensures w.alone && w.reliable ==>
              && Reconcile.Passed(old(TableOf(w.cells)), TableOf(w.cells), orphans, stuck, now)
              && line == Some(LogLine(|orphans|, |stuck|))
  {
    hide IsRun, Apply, Extends, World.Valid, Idle, StuckCountedBy, RequeueCountedBy, TableOf, Reconcile.Passed;
    var out, err;
    ghost var overdue, queued;
    out, err, orphans, stuck, overdue, queued := Reconcile.Execute(w, me, now);
    var stopping := *;
    line := if err.Nil? || stopping then Some(LogLine(out.orphanedPendingReenqueued, out.stuckProcessingFailed)) else None;
  }

  /**
   * One pass per tick. In every schedule, whatever fails, the log lines never add up to more than the
   * rows that have moved; on its own with reliable ports and a clock that does not go back, k ticks
   * drain min(N, 100k) of the N rows that either moving sweep could take at the first.
   */
  method RunLoop(w: World, ticks: seq<Nanos>) returns (lines: seq<LogLine>)
    requires w.Valid()
    modifies w
    ensures w.Valid() && Extends(old(w.runs), w.runs)
    ensures SumStuck(lines) <= |TimedOutRows(w.cells)| && SumOrphaned(lines) <= |RequeuedRows(w.cells)|
    ensures SumStuck(lines) <= |set id | id in w.cells && w.cells[id].row.Some? && w.cells[id].row.value.status == Failed|
    ensures SumOrphaned(lines) <= |set id | id in w.cells && w.cells[id].row.Some? && w.cells[id].row.value.status != Pending|
    ensures w.alone && w.reliable && ticks != [] && Nondecreasing(ticks) ==>
              var before := old(w.cells);
              var rows := set id | id in before && before[id].row.Some? && before[id].row.value.status == Pending
                                   && before[id].row.value.createdAt + 300_000_000_000 < ticks[0];
              && SumOrphaned(lines) >= Min(100 * |ticks|, |rows|)
              && |set id | id in rows && id in w.cells && w.cells[id].row.Some? && w.cells[id].row.value.status != Pending|
                 == Min(100 * |ticks|, |rows|)
    ensures w.alone && w.reliable && ticks != [] && Nondecreasing(ticks) ==>
              var before := old(w.cells);
              var rows := set id | id in before && before[id].row.Some? && before[id].row.value.status == Processing
                                   && before[id].row.value.updatedAt + 300_000_000_000 < ticks[0];
              && SumStuck(lines) >= Min(100 * |ticks|, |rows|)
              && |set id | id in rows && id in w.cells && w.cells[id].row.Some? && w.cells[id].row.value.status in {Delivered, Failed, Cancelled}|
                 == Min(100 * |ticks|, |rows|)
    ensures w.alone && w.reliable && ticks != [] && Nondecreasing(ticks) ==>
              && |lines| == |ticks|
              && DrainedBy(OrphanedPending, old(TableOf(w.cells)), ticks, TableOf(w.cells), SumOrphaned(lines))
              && DrainedBy(StuckProcessing, old(TableOf(w.cells)), ticks, TableOf(w.cells), SumStuck(lines))
  {
    hide IsRun, Apply, Extends, World.Valid, Idle, StuckCountedBy, RequeueCountedBy, TableOf, Mentioned, Reported, Told, DrainedBy,
         Reconcile.Passed, StuckReported, RequeueReported, TimedOutRows, RequeuedRows, SumStuck, SumOrphaned, Total;
    lines := [];
    var used: set<ActorId> := {};
    ghost var reports: seq<Report>, runs: seq<Run> := [], [];
    ExtendsItself(w.runs);
    NothingReported(TableOf(w.cells));
    assert ticks[..0] == [];
    var k := 0;
    while k < |ticks|
      invariant 0 <= k <= |ticks| && w.Valid() && Extends(old(w.runs), w.runs)
      invariant forall i, j | 0 <= i < j < |reports| :: reports[i].pass != reports[j].pass
      invariant forall i | 0 <= i < |reports| :: reports[i].pass in used && Reported(w.runs, reports[i])
      invariant SumStuck(lines) <= Total(StuckReported(reports)) && SumOrphaned(lines) <= Total(RequeueReported(reports))
      invariant w.alone && w.reliable && Nondecreasing(ticks) ==>
                  |lines| == k && Told(runs, ticks[..k], old(TableOf(w.cells)), TableOf(w.cells), lines)
    {
      ghost var a := SomeoneElse(Mentioned(w.cells) + used);
      assert a !in Mentioned(w.cells) + used;
      var me: ActorId :| me !in Mentioned(w.cells) + used;
      NewcomerIsIdle(w.cells, me);
      label ticking:
      var line, orphans, stuck := RunOnce(w, me, ticks[k]);
      ExtendsTransitively(old(w.runs), old@ticking(w.runs), w.runs);
      StillReported(old@ticking(w.runs), w.runs, reports);
      ReportedNow(w, me);
      OneMoreReport(reports, Report(me, w.cells, w.runs));
      reports := reports + [Report(me, w.cells, w.runs)];
      used := used + {me};
      if line.Some? {
        OneMoreLine(lines, line.value);
        if w.alone && w.reliable && Nondecreasing(ticks) {
          ghost var run := Run(ticks[k], old@ticking(TableOf(w.cells)), orphans, stuck, TableOf(w.cells));
          OneMoreRun(runs, ticks[..k], old(TableOf(w.cells)), old@ticking(TableOf(w.cells)), lines, run, line.value);
          assert ticks[..k] + [ticks[k]] == ticks[..k + 1];
          runs := runs + [run];
        }
        lines := lines + [line.value];
      }
      k := k + 1;
    }
    PassesNeverOvercount(w, reports);
    if w.alone && w.reliable && ticks != [] && Nondecreasing(ticks) {
      assert ticks[..k] == ticks;
      ToldDrains(runs, ticks, old(TableOf(w.cells)), TableOf(w.cells), lines);
      DrainedOnCells(old(w.cells), ticks, w.cells, SumOrphaned(lines), SumStuck(lines));
    }
  }
}
