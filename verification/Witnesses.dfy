/** Building runs event by event: for each kind of event, how it extends a run. */
module Witnesses {
  import opened Domain
  import opened RetryPolicy
  import opened Sweeps
  import opened Protocol

  const CREATOR: ActorId := 0
  const WORKER: ActorId := 1
  const SWEEPER: ActorId := 2
  const NEXT_WORKER: ActorId := 3

  /** One more cell at the end of a run. */
  ghost predicate OneMoreCell(run: seq<Cell>, longer: seq<Cell>, c: Cell) {
    IsRun(longer) && |longer| == |run| + 1 && longer[..|run|] == run && longer[|run|] == c
  }

  lemma Nonempty(run: seq<Cell>)
    requires IsRun(run)
    ensures |run| > 0
  {
  }

  lemma Then(run: seq<Cell>, e: Event, c: Cell) returns (longer: seq<Cell>)
    requires IsRun(run) && Apply(run[|run| - 1], e) == Some(c)
    ensures OneMoreCell(run, longer, c)
  {
    RunExtend(run, c);
    longer := run + [c];
  }

  lemma ThenSpawn(run: seq<Cell>, a: ActorId, entry: Pc) returns (longer: seq<Cell>)
    requires IsRun(run) && IsEntry(entry)
    requires var c := run[|run| - 1]; a in c.actors ==> c.actors[a].Stopped?
    ensures OneMoreCell(run, longer, Goto(run[|run| - 1], a, entry))
  {
    hide IsEntry;
    longer := Then(run, Spawn(a, entry), Goto(run[|run| - 1], a, entry));
  }

  lemma ThenCrash(run: seq<Cell>, a: ActorId) returns (longer: seq<Cell>)
    requires IsRun(run) && a in run[|run| - 1].actors
    ensures OneMoreCell(run, longer, Goto(run[|run| - 1], a, Stopped(Crashed)))
  {
    longer := Then(run, Crash(a), Goto(run[|run| - 1], a, Stopped(Crashed)));
  }

  lemma ThenInsert(run: seq<Cell>, a: ActorId, n: Row) returns (longer: seq<Cell>)
    requires IsRun(run)
    requires var c := run[|run| - 1]; a in c.actors && c.actors[a] == Inserting(n)
    ensures OneMoreCell(run, longer, Inserted(run[|run| - 1], a, n, Done))
  {
    longer := Then(run, Insert(a, Done), Inserted(run[|run| - 1], a, n, Done));
  }

  lemma ThenClaim(run: seq<Cell>, a: ActorId, now: Nanos) returns (longer: seq<Cell>)
    requires IsRun(run)
    requires var c := run[|run| - 1];
             && a in c.actors && c.actors[a] == Claiming
             && c.row.Some? && Claimable(c.row.value) && c.row.value.attempts < MAX_INT32
    ensures var c, r := run[|run| - 1], ClaimedRow(run[|run| - 1].row.value, now);
            OneMoreCell(run, longer, Cell(Some(r), c.actors[a := LoggingProcessing(r)], AfterClaim(c.h, c.row.value.status)))
  {
    longer := Then(run, Claim(a, now, Done), Claimed(run[|run| - 1], a, now, Done));
  }

  lemma ThenAppend(run: seq<Cell>, a: ActorId) returns (longer: seq<Cell>)
    requires IsRun(run)
    requires var c := run[|run| - 1]; a in c.actors && EventOf(c.actors[a]).Some?
    ensures var c := run[|run| - 1];
            OneMoreCell(run, longer, Cell(c.row, c.actors[a := AfterAppend(c.actors[a])],
                                          AfterEntry(c.h, a, c.actors[a], EventOf(c.actors[a]).value, true)))
  {
    hide EventOf, AfterAppend, AfterEntry;
    var c := run[|run| - 1];
    longer := Then(run, Append(a, Done), Appended(c, a, c.actors[a], EventOf(c.actors[a]).value, Done));
  }

  lemma ThenPublish(run: seq<Cell>, a: ActorId, n: Row) returns (longer: seq<Cell>)
    requires IsRun(run)
    requires var c := run[|run| - 1]; a in c.actors && c.actors[a] == PublishingProcessing(n)
    ensures var c := run[|run| - 1]; OneMoreCell(run, longer, Cell(c.row, c.actors[a := AskingLimiter(n)], AfterBroadcast(c.h)))
  {
    var c := run[|run| - 1];
    longer := Then(run, Publish(a, true), Cell(c.row, c.actors[a := AskingLimiter(n)], AfterBroadcast(c.h)));
  }

  lemma ThenLimit(run: seq<Cell>, a: ActorId, n: Row, verdict: Verdict) returns (longer: seq<Cell>)
    requires IsRun(run)
    requires var c := run[|run| - 1]; a in c.actors && c.actors[a] == AskingLimiter(n)
    ensures OneMoreCell(run, longer, Limited(run[|run| - 1], a, n, verdict))
  {
    longer := Then(run, Limit(a, verdict), Limited(run[|run| - 1], a, n, verdict));
  }

  lemma ThenSend(run: seq<Cell>, a: ActorId, n: Row) returns (longer: seq<Cell>)
    requires IsRun(run)
    requires var c := run[|run| - 1]; a in c.actors && c.actors[a] == ReadyToSend(n)
    ensures OneMoreCell(run, longer, Handed(run[|run| - 1], a, n))
  {
    longer := Then(run, SendStart(a), Handed(run[|run| - 1], a, n));
  }

  lemma ThenAnswer(run: seq<Cell>, a: ActorId, n: Row, result: DeliveryResult) returns (longer: seq<Cell>)
    requires IsRun(run)
    requires var c := run[|run| - 1]; a in c.actors && c.actors[a] == Sending(n)
    ensures OneMoreCell(run, longer, Answered(run[|run| - 1], a, n, result))
  {
    longer := Then(run, SendReturn(a, result), Answered(run[|run| - 1], a, n, result));
  }

  lemma ThenWrite(run: seq<Cell>, a: ActorId, now: Nanos, w: Write) returns (longer: seq<Cell>)
    requires IsRun(run)
    requires var c := run[|run| - 1]; a in c.actors && WriteOf(c.actors[a], now) == Some(w) && GuardHolds(c.row, w.source)
    ensures var c := run[|run| - 1];
            OneMoreCell(run, longer, Cell(Some(Written(c.row.value, w.n)), c.actors[a := w.next], AfterWrite(c.h, c.actors[a], w)))
  {
    hide WriteOf, AfterWrite, Written;
    var c := run[|run| - 1];
    longer := Then(run, Update(a, now, Done), Updated(c, a, c.actors[a], w, Done));
  }

  lemma ThenEnqueue(run: seq<Cell>, a: ActorId, n: Row) returns (longer: seq<Cell>)
    requires IsRun(run)
    requires var c := run[|run| - 1]; a in c.actors && c.actors[a] == Enqueuing(n)
    ensures var c := run[|run| - 1]; OneMoreCell(run, longer, Cell(c.row, c.actors[a := MarkingQueued(n)], AfterTask(c.h)))
  {
    var c := run[|run| - 1];
    longer := Then(run, Enqueue(a, true), Cell(c.row, c.actors[a := MarkingQueued(n)], AfterTask(c.h)));
  }

  lemma ThenSelect(run: seq<Cell>, a: ActorId, sweep: Sweep, now: Nanos) returns (longer: seq<Cell>)
    requires IsRun(run)
    requires var c := run[|run| - 1];
             a in c.actors && c.actors[a] == Scanning && c.row.Some? && Eligible(sweep, c.row.value, now)
    ensures var c := run[|run| - 1]; OneMoreCell(run, longer, Goto(c, a, AfterSelect(sweep, c.row.value, now)))
  {
    hide Eligible, AfterSelect;
    var c := run[|run| - 1];
    longer := Then(run, Select(a, sweep, now), Goto(c, a, AfterSelect(sweep, c.row.value, now)));
  }

  lemma EntryFacts(n: Row)
    ensures EventOf(LoggingCreated(n)) == Some(LogCreated) && AfterAppend(LoggingCreated(n)) == Enqueuing(n)
    ensures EventOf(LoggingProcessing(n)) == Some(LogProcessing) && AfterAppend(LoggingProcessing(n)) == PublishingProcessing(n)
  {
  }

  lemma CreatorStarts(n: Row) returns (run: seq<Cell>)
    requires IsNew(n)
    ensures IsRun(run) && |run| > 0
    ensures var c := run[|run| - 1];
            c.row == Some(n) && c.actors == map[CREATOR := LoggingCreated(n)] && c.h == NOTHING
  {
    run := [EMPTY];
    assert IsRun(run);
    hide IsRun, Apply;
    run := ThenSpawn(run, CREATOR, Inserting(n));
    run := ThenInsert(run, CREATOR, n);
  }

  /** A notification is created and queued. */
  lemma QueuedRun() returns (run: seq<Cell>)
    ensures IsRun(run) && |run| > 0
    ensures var c := run[|run| - 1]; c.row == Some(Moved(NewRow(None, 0), Queued, 0)) && c.actors.Keys == {CREATOR}
    ensures run[|run| - 1].h.denials == run[|run| - 1].h.sends == 0
  {
    hide IsRun, Apply, EventOf, AfterAppend;
    var n := NewRow(None, 0);
    run := CreatorStarts(n);
    EntryFacts(n);
    run := ThenAppend(run, CREATOR);
    run := ThenEnqueue(run, CREATOR, n);
    run := ThenWrite(run, CREATOR, 0, Write(Moved(n, Queued, 0), Pending, LoggingQueued));
  }
}
