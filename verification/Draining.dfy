/**
 * Draining a backlog: passes take the oldest eligible rows first, a hundred at a time, so a backlog
 * of N rows is gone after ceil(N/100) of them, whatever becomes eligible in between.
 */
module Draining {
  import opened Collections
  import opened Domain
  import opened Sweeps
  import opened Tables
  import opened Reconcile

  /** One sweep of one pass: when it ran, what it found, what it handled, what it left. */
  datatype Pass = Pass(now: Nanos, before: Table, ids: seq<Id>, after: Table)

  /** The statuses from which no path of the lifecycle leads to the one a sweep selects. */
  predicate Past(sweep: Sweep, s: Status) {
    IsTerminal(s) || (sweep.OrphanedPending? && s != Pending)
  }

  /**
   * What others may do between two passes: anything, except that the rows waiting for the sweep are
   * left alone, rows past it stay past it, and whatever is written carries a time stamp no older
   * than the cutoff of the pass before.
   */
  ghost predicate Quiet(sweep: Sweep, after: Table, now: Nanos, before: Table, later: Nanos) {
    && now <= later
    && (forall id | id in EligibleIds(after, sweep, now) :: id in before && before[id] == after[id])
    && (forall id | id in after && Past(sweep, after[id].status) :: id in before && Past(sweep, before[id].status))
    && (forall id | id in before && before[id].status == Target(sweep) ::
          (id in after && before[id] == after[id]) || SortKey(sweep, before[id]) >= now - Threshold(sweep))
  }

  lemma QuietTransitively(sweep: Sweep, t0: Table, n0: Nanos, t1: Table, n1: Nanos, t2: Table, n2: Nanos)
    requires Quiet(sweep, t0, n0, t1, n1) && Quiet(sweep, t1, n1, t2, n2)
    ensures Quiet(sweep, t0, n0, t2, n2)
  {
    forall id | id in EligibleIds(t0, sweep, n0)
      ensures id in t2 && t2[id] == t0[id]
    {
      assert id in EligibleIds(t1, sweep, n1);
    }
  }

  /** The other mutating sweep of the same pass is quiet, and so is the mere passing of time. */
  lemma OtherSweepIsQuiet(sweep: Sweep, other: Sweep, table: Table, ids: seq<Id>, now: Nanos, later: Nanos)
    requires {sweep, other} == {OrphanedPending, StuckProcessing} && sweep != other && now <= later
    requires SweptSelection(table, Swept(table, other, ids, now), other, ids, now)
    ensures Quiet(sweep, table, now, Swept(table, other, ids, now), later)
  {
    assert sweep != other;
    forall id | id in table
      ensures id in ids ==> table[id].status == Target(other)
    {
      if id in ids {
        var k :| 0 <= k < |ids| && ids[k] == id;
        assert ids[k] in EligibleIds(table, other, now);
      }
    }
  }

  /** A schedule of passes of one sweep, with others quiet in between. */
  ghost predicate IsSchedule(sweep: Sweep, passes: seq<Pass>) {
    && (forall k | 0 <= k < |passes| ::
          SweptSelection(passes[k].before, passes[k].after, sweep, passes[k].ids, passes[k].now))
    && (forall k, l | 0 <= k && l == k + 1 && l < |passes| ::
          Quiet(sweep, passes[k].after, passes[k].now, passes[l].before, passes[l].now))
  }

  /** How often the passes counted a row of `rows`. */
  function Counted(passes: seq<Pass>, rows: set<Id>): nat {
    if passes == [] then 0
    else Counted(passes[..|passes| - 1], rows) + |SetOf(passes[|passes| - 1].ids) * rows|
  }

  /** The rows of `rows` that the passes have not handled. */
  function Waiting(passes: seq<Pass>, rows: set<Id>): set<Id> {
    if passes == [] then rows
    else Waiting(passes[..|passes| - 1], rows) - SetOf(passes[|passes| - 1].ids)
  }

  /** A selection prefers the rows that are strictly older than all others: it takes as many as fit. */
  lemma OldestGoFirst(table: Table, sweep: Sweep, now: Nanos, limit: nat, ids: seq<Id>, rows: set<Id>)
    requires IsSelection(table, sweep, now, limit, ids)
    requires rows <= EligibleIds(table, sweep, now)
    requires forall id, old_ | id in EligibleIds(table, sweep, now) && id !in rows && old_ in rows ::
               SortKey(sweep, table[old_]) < SortKey(sweep, table[id])
    ensures |SetOf(ids) * rows| == Min(limit, |rows|)
  {
    SetOfSize(ids);
    if rows <= SetOf(ids) {
      assert SetOf(ids) * rows == rows;
      SubsetSize(rows, SetOf(ids));
    } else {
      var left :| left in rows && left !in SetOf(ids);
      forall id | id in ids
        ensures id in rows
      {
        var k :| 0 <= k < |ids| && ids[k] == id;
        assert ids[k] in EligibleIds(table, sweep, now);
      }
      assert SetOf(ids) * rows == SetOf(ids);
      SubsetSize(SetOf(ids), rows);
    }
  }

  /**
   * The state of a backlog of `rows` in `table`: those `left` are as they were at the start and
   * strictly older than anything else the sweep could take, and the others are past the sweep.
   */
  ghost predicate Backlog(sweep: Sweep, start: Table, table: Table, now: Nanos, rows: set<Id>, left: set<Id>) {
    && left <= rows <= start.Keys
    && (forall id | id in left :: id in EligibleIds(table, sweep, now) && table[id] == start[id])
    && (forall id | id in rows && id !in left :: id in table && Past(sweep, table[id].status))
    && (forall id, waiting | id in EligibleIds(table, sweep, now) && id !in left && waiting in left ::
          SortKey(sweep, start[waiting]) < SortKey(sweep, table[id]))
  }

  /** Whatever becomes eligible between two passes is newer than everything that was waiting. */
  lemma ArrivalsAreNewer(sweep: Sweep, start: Table, after: Table, now: Nanos, before: Table, later: Nanos, rows: set<Id>, left: set<Id>)
    requires sweep.OrphanedPending? || sweep.StuckProcessing?
    requires Backlog(sweep, start, after, now, rows, left) && Quiet(sweep, after, now, before, later)
    ensures Backlog(sweep, start, before, later, rows, left)
  {
    forall id, waiting | id in EligibleIds(before, sweep, later) && id !in left && waiting in left
      ensures SortKey(sweep, start[waiting]) < SortKey(sweep, before[id])
    {
      assert waiting in EligibleIds(after, sweep, now);
      if id in after && before[id] == after[id] && SortKey(sweep, after[id]) < now - Threshold(sweep) {
        assert id in EligibleIds(after, sweep, now);
      }
    }
    forall id | id in left
      ensures id in EligibleIds(before, sweep, later) && before[id] == start[id]
    {
      assert id in EligibleIds(after, sweep, now);
    }
  }

  /** What a sweep handled was eligible and is now past the sweep; the rest is as it was. */
  lemma SweepEffect(sweep: Sweep, p: Pass)
    requires sweep.OrphanedPending? || sweep.StuckProcessing?
    requires SweptSelection(p.before, p.after, sweep, p.ids, p.now)
    ensures IsSelection(p.before, sweep, p.now, RECONCILER_BATCH_SIZE, p.ids) && p.after.Keys == p.before.Keys
    ensures SetOf(p.ids) <= EligibleIds(p.before, sweep, p.now)
    ensures forall id | id in SetOf(p.ids) :: id in p.after && Past(sweep, p.after[id].status)
    ensures forall id | id in p.before && id !in SetOf(p.ids) :: p.after[id] == p.before[id]
    ensures EligibleIds(p.after, sweep, p.now) == EligibleIds(p.before, sweep, p.now) - SetOf(p.ids)
  {
    forall id | id in SetOf(p.ids)
      ensures id in EligibleIds(p.before, sweep, p.now) && Past(sweep, p.after[id].status)
    {
      var k :| 0 <= k < |p.ids| && p.ids[k] == id;
      assert p.ids[k] in EligibleIds(p.before, sweep, p.now);
    }
  }

  lemma SetParts(taken: set<Id>, rows: set<Id>, left: set<Id>)
    requires left <= rows && taken * rows <= left
    ensures |left - taken| == |left| - |taken * left| && taken * rows == taken * left
  {
    assert left == (left - taken) + (taken * left);
  }

  lemma EligibleIsNotPast(table: Table, sweep: Sweep, now: Nanos, id: Id)
    requires id in EligibleIds(table, sweep, now)
    ensures id in table && !Past(sweep, table[id].status)
  {
  }

  lemma NoneAgain(sweep: Sweep, start: Table, table: Table, now: Nanos, taken: set<Id>, rows: set<Id>, left: set<Id>)
    requires Backlog(sweep, start, table, now, rows, left) && taken <= EligibleIds(table, sweep, now)
    ensures taken * rows <= left
  {
    hide EligibleIds;
    forall id | id in taken && id in rows
      ensures id in left
    {
      EligibleIsNotPast(table, sweep, now, id);
    }
  }

  lemma BacklogAfter(sweep: Sweep, start: Table, table: Table, now: Nanos, table': Table, taken: set<Id>, rows: set<Id>, left: set<Id>)
    requires Backlog(sweep, start, table, now, rows, left)
    requires table'.Keys == table.Keys && taken <= EligibleIds(table, sweep, now)
    requires forall id | id in taken :: id in table' && Past(sweep, table'[id].status)
    requires forall id | id in table && id !in taken :: table'[id] == table[id]
    requires EligibleIds(table', sweep, now) == EligibleIds(table, sweep, now) - taken
    ensures Backlog(sweep, start, table', now, rows, left - taken)
  {
    hide Past;
    assert EligibleIds(table, sweep, now) <= table.Keys;
    hide EligibleIds;
  }

  lemma OldestWaiting(sweep: Sweep, start: Table, p: Pass, rows: set<Id>, left: set<Id>)
    requires Backlog(sweep, start, p.before, p.now, rows, left)
    requires IsSelection(p.before, sweep, p.now, RECONCILER_BATCH_SIZE, p.ids)
    ensures |SetOf(p.ids) * left| == Min(RECONCILER_BATCH_SIZE, |left|)
  {
    hide EligibleIds, IsSelection, SetOf, Past;
    OldestGoFirst(p.before, sweep, p.now, RECONCILER_BATCH_SIZE, p.ids, left);
  }

  /** One pass takes the oldest waiting rows, as many as fit, and none that it took before. */
  lemma PassTakesOldest(sweep: Sweep, start: Table, p: Pass, rows: set<Id>, left: set<Id>)
    requires sweep.OrphanedPending? || sweep.StuckProcessing?
    requires Backlog(sweep, start, p.before, p.now, rows, left) && left <= rows
    requires SweptSelection(p.before, p.after, sweep, p.ids, p.now)
    ensures Backlog(sweep, start, p.after, p.now, rows, left - SetOf(p.ids))
    ensures SetOf(p.ids) * rows <= left
    ensures |SetOf(p.ids) * rows| == Min(RECONCILER_BATCH_SIZE, |left|)
    ensures |left - SetOf(p.ids)| == |left| - Min(RECONCILER_BATCH_SIZE, |left|)
  {
    hide Backlog, SetOf, IsSelection, SweptSelection, EligibleIds, Past, Min;
    SweepEffect(sweep, p);
    NoneAgain(sweep, start, p.before, p.now, SetOf(p.ids), rows, left);
    OldestWaiting(sweep, start, p, rows, left);
    SetParts(SetOf(p.ids), rows, left);
    BacklogAfter(sweep, start, p.before, p.now, p.after, SetOf(p.ids), rows, left);
  }

  lemma {:induction false} BacklogShrinks(sweep: Sweep, passes: seq<Pass>, start: Table, rows: set<Id>)
    requires sweep.OrphanedPending? || sweep.StuckProcessing?
    requires passes != [] && IsSchedule(sweep, passes)
    requires Backlog(sweep, start, passes[0].before, passes[0].now, rows, rows)
    ensures var last := passes[|passes| - 1]; Backlog(sweep, start, last.after, last.now, rows, Waiting(passes, rows))
    ensures Waiting(passes, rows) <= rows && |Waiting(passes, rows)| == |rows| - Min(RECONCILER_BATCH_SIZE * |passes|, |rows|)
    ensures Counted(passes, rows) == |rows| - |Waiting(passes, rows)|
    ensures var last := passes[|passes| - 1]; SetOf(last.ids) * rows <= Waiting(passes[..|passes| - 1], rows)
  {
    hide Backlog, Quiet, SweptSelection, SetOf;
    var front, last := passes[..|passes| - 1], passes[|passes| - 1];
    if front != [] {
      BacklogShrinks(sweep, front, start, rows);
      var before := front[|front| - 1];
      assert before == passes[|passes| - 2];
      ArrivalsAreNewer(sweep, start, before.after, before.now, last.before, last.now, rows, Waiting(front, rows));
    }
    PassTakesOldest(sweep, start, last, rows, Waiting(front, rows));
  }

  /**
   * The backlog drains at a hundred rows a pass: of the N rows eligible at the start, exactly
   * min(N, 100k) have been moved and counted after k passes, so all N after ceil(N/100), and none is
   * counted twice, whatever became eligible meanwhile.
   */
  lemma Drained(sweep: Sweep, passes: seq<Pass>)
    requires sweep.OrphanedPending? || sweep.StuckProcessing?
    requires passes != [] && IsSchedule(sweep, passes)
    ensures var first, last := passes[0], passes[|passes| - 1];
            var rows := EligibleIds(first.before, sweep, first.now);
            && Counted(passes, rows) == Min(100 * |passes|, |rows|)
            && (forall id | id in rows && id !in Waiting(passes, rows) :: id in last.after && Past(sweep, last.after[id].status))
            && (100 * |passes| >= |rows| ==> Waiting(passes, rows) == {})
  {
    var rows := EligibleIds(passes[0].before, sweep, passes[0].now);
    BacklogShrinks(sweep, passes, passes[0].before, rows);
  }

  lemma {:induction false} HandledIsNotWaiting(passes: seq<Pass>, rows: set<Id>, i: nat)
    requires i < |passes|
    ensures Waiting(passes, rows) !! SetOf(passes[i].ids)
  {
    if i < |passes| - 1 {
      HandledIsNotWaiting(passes[..|passes| - 1], rows, i);
    }
  }

  lemma SchedulePrefix(sweep: Sweep, passes: seq<Pass>, n: nat)
    requires IsSchedule(sweep, passes) && n <= |passes|
    ensures IsSchedule(sweep, passes[..n])
  {
  }

  lemma BacklogStarts(sweep: Sweep, table: Table, now: Nanos)
    ensures var rows := EligibleIds(table, sweep, now); Backlog(sweep, table, table, now, rows, rows)
  {
  }

  lemma LastTakesWaiting(sweep: Sweep, passes: seq<Pass>, front: seq<Pass>, last: Pass)
    requires sweep.OrphanedPending? || sweep.StuckProcessing?
    requires IsSchedule(sweep, passes) && passes == front + [last]
    ensures var rows := EligibleIds(passes[0].before, sweep, passes[0].now); SetOf(last.ids) * rows <= Waiting(front, rows)
  {
    hide Backlog, Quiet, EligibleIds, IsSchedule, Waiting, Counted, SetOf;
    BacklogStarts(sweep, passes[0].before, passes[0].now);
    BacklogShrinks(sweep, passes, passes[0].before, EligibleIds(passes[0].before, sweep, passes[0].now));
    assert passes[..|passes| - 1] == front;
  }

  /** No two passes handle the same row of the backlog. */
  lemma HandledOnce(sweep: Sweep, passes: seq<Pass>, i: nat, j: nat)
    requires sweep.OrphanedPending? || sweep.StuckProcessing?
    requires IsSchedule(sweep, passes) && i < j < |passes|
    ensures SetOf(passes[i].ids) * SetOf(passes[j].ids) * EligibleIds(passes[0].before, sweep, passes[0].now) == {}
  {
    hide EligibleIds, IsSchedule, Waiting, SetOf;
    SchedulePrefix(sweep, passes, j + 1);
    assert passes[..j + 1] == passes[..j] + [passes[j]];
    LastTakesWaiting(sweep, passes[..j + 1], passes[..j], passes[j]);
    HandledIsNotWaiting(passes[..j], EligibleIds(passes[0].before, sweep, passes[0].now), i);
  }

  // ---------------------------------------------------------------------------------------------
  // From whole passes, as Reconcile.Execute runs them, to the schedules of their two moving sweeps
  // ---------------------------------------------------------------------------------------------

  /** One error-free call of Execute without interference. */
  datatype Run = Run(now: Nanos, before: Table, orphans: seq<Id>, stuck: seq<Id>, after: Table)

  function PassOf(sweep: Sweep, run: Run): Pass {
    var between := Swept(run.before, OrphanedPending, run.orphans, run.now);
    if sweep.OrphanedPending? then Pass(run.now, run.before, run.orphans, between)
    else Pass(run.now, between, run.stuck, run.after)
  }

  function PassesOf(sweep: Sweep, runs: seq<Run>): (passes: seq<Pass>)
    ensures |passes| == |runs| && forall k | 0 <= k < |runs| :: passes[k] == PassOf(sweep, runs[k])
  {
    seq(|runs|, k requires 0 <= k < |runs| => PassOf(sweep, runs[k]))
  }

  /** Calls of Execute one after the other, with others quiet in between for both moving sweeps. */
  ghost predicate AreRuns(runs: seq<Run>) {
    && (forall k | 0 <= k < |runs| :: Passed(runs[k].before, runs[k].after, runs[k].orphans, runs[k].stuck, runs[k].now))
    && (forall k, l | 0 <= k && l == k + 1 && l < |runs| ::
          && Quiet(OrphanedPending, runs[k].after, runs[k].now, runs[l].before, runs[l].now)
          && Quiet(StuckProcessing, runs[k].after, runs[k].now, runs[l].before, runs[l].now))
  }

  lemma SecondSweepIsQuiet(between: Table, stuck: seq<Id>, now: Nanos, after: Table)
    requires SweptSelection(between, after, StuckProcessing, stuck, now)
    ensures Quiet(OrphanedPending, between, now, after, now)
  {
    assert after == Swept(between, StuckProcessing, stuck, now);
    OtherSweepIsQuiet(OrphanedPending, StuckProcessing, between, stuck, now, now);
  }

  lemma RunsAreSchedules(runs: seq<Run>, sweep: Sweep)
    requires AreRuns(runs) && (sweep.OrphanedPending? || sweep.StuckProcessing?)
    ensures IsSchedule(sweep, PassesOf(sweep, runs))
  {
    hide Quiet, SweptSelection, Swept;
    var passes := PassesOf(sweep, runs);
    forall k, l | 0 <= k && l == k + 1 && l < |passes|
      ensures Quiet(sweep, passes[k].after, passes[k].now, passes[l].before, passes[l].now)
    {
      var r, r' := runs[k], runs[l];
      assert Passed(r.before, r.after, r.orphans, r.stuck, r.now) && Passed(r'.before, r'.after, r'.orphans, r'.stuck, r'.now);
      var between, between' := Swept(r.before, OrphanedPending, r.orphans, r.now), Swept(r'.before, OrphanedPending, r'.orphans, r'.now);
      if sweep.OrphanedPending? {
        SecondSweepIsQuiet(between, r.stuck, r.now, r.after);
        QuietTransitively(sweep, between, r.now, r.after, r.now, r'.before, r'.now);
      } else {
        OtherSweepIsQuiet(sweep, OrphanedPending, r'.before, r'.orphans, r'.now, r'.now);
        QuietTransitively(sweep, r.after, r.now, r'.before, r'.now, between', r'.now);
      }
    }
  }

  // ---------------------------------------------------------------------------------------------
  // What whole passes do to the table
  // ---------------------------------------------------------------------------------------------

  lemma IdleIsQuiet(sweep: Sweep, table: Table, now: Nanos, later: Nanos)
    requires now <= later
    ensures Quiet(sweep, table, now, table, later)
  {
  }

  /** Back-to-back passes: each finds the table as the one before left it, at a time no earlier. */
  ghost predicate BackToBack(runs: seq<Run>) {
    && (forall k | 0 <= k < |runs| :: Passed(runs[k].before, runs[k].after, runs[k].orphans, runs[k].stuck, runs[k].now))
    && (forall k, l | 0 <= k && l == k + 1 && l < |runs| :: runs[l].before == runs[k].after && runs[k].now <= runs[l].now)
  }

  lemma BackToBackRuns(runs: seq<Run>)
    requires BackToBack(runs)
    ensures AreRuns(runs)
  {
    hide Quiet, Passed;
    forall k, l | 0 <= k && l == k + 1 && l < |runs|
      ensures Quiet(OrphanedPending, runs[k].after, runs[k].now, runs[l].before, runs[l].now)
      ensures Quiet(StuckProcessing, runs[k].after, runs[k].now, runs[l].before, runs[l].now)
    {
      IdleIsQuiet(OrphanedPending, runs[k].after, runs[k].now, runs[l].now);
      IdleIsQuiet(StuckProcessing, runs[k].after, runs[k].now, runs[l].now);
    }
  }

  /** The rows of `rows` that a table shows past a sweep. */
  function PastRows(sweep: Sweep, rows: set<Id>, table: Table): set<Id> {
    set id | id in rows && id in table && Past(sweep, table[id].status)
  }

  /** Of the N rows that were eligible at the start, exactly min(N, 100k) are past the sweep, so all of them if 100k suffices. */
  ghost predicate IsDrained(sweep: Sweep, start: Table, now: Nanos, k: nat, table: Table) {
    var rows := EligibleIds(start, sweep, now);
    && |PastRows(sweep, rows, table)| == Min(100 * k, |rows|)
    && (100 * k >= |rows| ==> PastRows(sweep, rows, table) == rows)
  }

  /** The counter of a run for a moving sweep. */
  function CountOf(sweep: Sweep, run: Run): nat {
    if sweep.OrphanedPending? then |run.orphans| else |run.stuck|
  }

  function CountAll(sweep: Sweep, runs: seq<Run>): nat {
    if runs == [] then 0 else CountAll(sweep, runs[..|runs| - 1]) + CountOf(sweep, runs[|runs| - 1])
  }

  lemma {:induction false} CountedAtMost(sweep: Sweep, runs: seq<Run>, rows: set<Id>)
    ensures Counted(PassesOf(sweep, runs), rows) <= CountAll(sweep, runs)
  {
    if runs != [] {
      var front, last := runs[..|runs| - 1], runs[|runs| - 1];
      CountedAtMost(sweep, front, rows);
      assert PassesOf(sweep, runs)[..|runs| - 1] == PassesOf(sweep, front);
      var ids := PassOf(sweep, last).ids;
      SetOfAtMost(ids);
      SubsetSize(SetOf(ids) * rows, SetOf(ids));
    }
  }

  /** The second sweep of a pass brings no row back to the first and takes none past it. */
  lemma SecondSweepKeepsPast(between: Table, after: Table, stuck: seq<Id>, now: Nanos, rows: set<Id>)
    requires SweptSelection(between, after, StuckProcessing, stuck, now)
    ensures PastRows(OrphanedPending, rows, after) == PastRows(OrphanedPending, rows, between)
  {
    forall id | id in between
      ensures id in after && (Past(OrphanedPending, after[id].status) <==> Past(OrphanedPending, between[id].status))
    {
      if id in stuck {
        var k :| 0 <= k < |stuck| && stuck[k] == id;
        assert stuck[k] in EligibleIds(between, StuckProcessing, now);
      }
    }
  }

  lemma PastRowsOfBacklog(sweep: Sweep, start: Table, table: Table, now: Nanos, rows: set<Id>, left: set<Id>)
    requires Backlog(sweep, start, table, now, rows, left)
    ensures PastRows(sweep, rows, table) == rows - left && |rows - left| == |rows| - |left|
  {
    forall id | id in left
      ensures id in table && !Past(sweep, table[id].status)
    {
      EligibleIsNotPast(table, sweep, now, id);
    }
    assert rows == (rows - left) + left;
  }

  /** The same backlog, told of the passes of one sweep. */
  lemma PassesDrain(sweep: Sweep, passes: seq<Pass>)
    requires sweep.OrphanedPending? || sweep.StuckProcessing?
    requires passes != [] && IsSchedule(sweep, passes)
    ensures IsDrained(sweep, passes[0].before, passes[0].now, |passes|, passes[|passes| - 1].after)
  {
    hide Backlog, IsSchedule, EligibleIds, Waiting, Counted, PastRows;
    var last, rows := passes[|passes| - 1], EligibleIds(passes[0].before, sweep, passes[0].now);
    BacklogStarts(sweep, passes[0].before, passes[0].now);
    BacklogShrinks(sweep, passes, passes[0].before, rows);
    PastRowsOfBacklog(sweep, passes[0].before, last.after, last.now, rows, Waiting(passes, rows));
    if RECONCILER_BATCH_SIZE * |passes| >= |rows| {
      assert Waiting(passes, rows) == {};
    }
  }

  /**
   * What k whole passes of Execute do to the rows that either moving sweep could take at the start:
   * min(N, 100k) of the N rows are past that sweep afterwards, and the counters add up to at least that.
   */
  lemma RunsDrain(sweep: Sweep, runs: seq<Run>)
    requires sweep.OrphanedPending? || sweep.StuckProcessing?
    requires runs != [] && AreRuns(runs)
    ensures IsDrained(sweep, runs[0].before, runs[0].now, |runs|, runs[|runs| - 1].after)
    ensures CountAll(sweep, runs) >= Min(100 * |runs|, |EligibleIds(runs[0].before, sweep, runs[0].now)|)
  {
    hide EligibleIds, PastRows, SweptSelection, Swept, Quiet, Waiting, Counted, CountAll, IsSchedule;
    var passes, first, last := PassesOf(sweep, runs), runs[0], runs[|runs| - 1];
    RunsAreSchedules(runs, sweep);
    PassesDrain(sweep, passes);
    Drained(sweep, passes);
    CountedAtMost(sweep, runs, EligibleIds(passes[0].before, sweep, passes[0].now));
    assert Passed(first.before, first.after, first.orphans, first.stuck, first.now);
    assert Passed(last.before, last.after, last.orphans, last.stuck, last.now);
    if sweep.OrphanedPending? {
      SecondSweepKeepsPast(passes[|runs| - 1].after, last.after, last.stuck, last.now, EligibleIds(first.before, sweep, first.now));
    } else {
      FirstSweepKeepsStuck(first.before, passes[0].before, first.orphans, first.now);
    }
  }
}
