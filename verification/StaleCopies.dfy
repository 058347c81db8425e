/**
 * What a guard on the status alone does not protect against: a sweep or a canceller whose copy of
 * the row is from an earlier claim, a worker that sends after its row was failed, and a failed row
 * whose message the provider has accepted. Each comes with a run that shows it; the exact condition
 * under which it cannot happen is stated here, or with the guarantee that it limits.
 */
module StaleCopies {
  import opened Domain
  import opened RetryPolicy
  import opened Sweeps
  import opened Protocol
  import opened Invariant
  import opened Preservation
  import opened Guarantees
  import opened Witnesses

  // ---------------------------------------------------------------------------------------------
  // A stale copy is recognized by its attempts
  // ---------------------------------------------------------------------------------------------

  lemma ClaimsStep(c: Cell, e: Event, c': Cell)
    requires Apply(c, e) == Some(c')
    ensures c'.h.claims >= c.h.claims
    ensures e.Claim? || e.Update? || e.Insert? || c'.row == c.row
    ensures e.Claim? && c'.row != c.row ==> c'.h.claims == c.h.claims + 1
  {
  }

  lemma WriteNeverEntersProcessing(pc: Pc, now: Nanos, w: Write)
    requires WriteOf(pc, now) == Some(w)
    ensures w.n.status != Processing
  {
  }

  lemma EntersProcessingByClaim(c: Cell, c': Cell)
    requires Inv(c) && Next(c, c') && c.row.Some?
    ensures c'.h.claims >= c.h.claims && LegalChange(c, c')
    ensures c'.row != c.row && c'.row.value.status == Processing ==> c'.h.claims == c.h.claims + 1
  {
    hide Numbers;
    var e :| Apply(c, e) == Some(c');
    LegalStep(c, e, c');
    ClaimsStep(c, e, c');
    if e.Update? {
      var pc := c.actors[e.a];
      assert Holds(c.h, pc);
      UpdatedRow(c, e.a, pc, WriteOf(pc, e.now).value, e.ack);
      WriteNeverEntersProcessing(pc, e.now, WriteOf(pc, e.now).value);
    }
  }

  lemma StaysSome(c: Cell, c': Cell)
    requires LegalChange(c, c') && c.row.Some?
    ensures c'.row.Some?
  {
  }

  /** While no further claim commits, a processing row stays as it is or leaves processing for good. */
  lemma {:induction false} SameClaimSameRow(run: seq<Cell>, i: nat, j: nat)
    requires IsRun(run) && i <= j < |run| && run[i].row.Some? && run[i].row.value.status == Processing
    ensures run[j].row.Some? && run[j].h.claims >= run[i].h.claims
    ensures run[j].h.claims == run[i].h.claims ==> run[j].row == run[i].row || run[j].row.value.status != Processing
    decreases j
  {
    hide Inv, LegalChange;
    if i < j {
      SameClaimSameRow(run, i, j - 1);
      InvReachable(run, j - 1);
      RunStep(run, j - 1);
      EntersProcessingByClaim(run[j - 1], run[j]);
      StaysSome(run[j - 1], run[j]);
    }
  }

  /**
   * The stuck-processing handler against the row it finds. The row it selected at step i is still the
   * row its guarded write hits at step j exactly when the attempts agree: comparing attempts as well
   * as the status would turn the guard into a version check.
   */
  lemma SweepHitsTheRowItSelected(run: seq<Cell>, i: nat, j: nat, n: Row, r: Row)
    requires IsRun(run) && i <= j < |run|
    requires run[i].row == Some(n) && n.status == Processing
    requires run[j].row == Some(r) && r.status == Processing
    ensures r == n <==> r.attempts == n.attempts
  {
    AttemptsCountClaims(run, i);
    AttemptsCountClaims(run, j);
    SameClaimSameRow(run, i, j);
  }

  // ---------------------------------------------------------------------------------------------
  // A run in which a stale sweep fails a fresh claim
  // ---------------------------------------------------------------------------------------------

  lemma PrefixOfPrefix(run: seq<Cell>, next: seq<Cell>, longer: seq<Cell>)
    requires |run| <= |next| <= |longer| && next[..|run|] == run && longer[..|next|] == next
    ensures longer[..|run|] == run
  {
    assert longer[..|run|] == longer[..|next|][..|run|];
  }

  /** A worker claims the row at time 0 and stands before the rate limiter. */
  lemma AskingRun() returns (run: seq<Cell>, r: Row)
    ensures IsRun(run) && |run| > 0 && r.status == Processing && r.attempts == 1 && r.updatedAt == 0
    ensures var c := run[|run| - 1];
            c.row == Some(r) && c.actors.Keys == {CREATOR, WORKER} && c.actors[WORKER] == AskingLimiter(r)
  {
    hide IsRun, Apply, EventOf, AfterAppend, AfterEntry;
    run := QueuedRun();
    r := ClaimedRow(Moved(NewRow(None, 0), Queued, 0), 0);
    EntryFacts(r);
    run := ThenSpawn(run, WORKER, Claiming);
    run := ThenClaim(run, WORKER, 0);
    run := ThenAppend(run, WORKER);
    run := ThenPublish(run, WORKER, r);
  }

  /**
   * At step i the sweeper selects row n as stuck; at step j its write fails row r, whose claim is not
   * stuck at all, and takes its attempts back to those of the old claim.
   */
  ghost predicate FailsFreshClaim(run: seq<Cell>, i: nat, j: nat, n: Row, r: Row, now: Nanos) {
    && IsRun(run) && i < j < |run| && SWEEPER in run[i].actors
    && run[i].actors[SWEEPER] == TimingOut(n, now) && run[i].row == Some(n) && Eligible(StuckProcessing, n, now)
    && run[j - 1].row == Some(r) && r.status == Processing && !Eligible(StuckProcessing, r, now)
    && run[j].row == Some(Written(r, MarkedFailed(n, now, "worker_timeout")))
    && run[j].row.value.attempts < r.attempts
  }

  lemma SelectedRun(now: Nanos) returns (run: seq<Cell>, r: Row)
    requires now == 10 * MINUTE
    ensures IsRun(run) && |run| > 0 && r.status == Processing && r.attempts == 1 && r.updatedAt == 0
    ensures var c := run[|run| - 1];
            && c.row == Some(r) && c.actors.Keys == {CREATOR, WORKER, SWEEPER}
            && c.actors[WORKER] == Rescheduling(r) && c.actors[SWEEPER] == TimingOut(r, now)
  {
    hide IsRun, Apply;
    run, r := AskingRun();
    run := ThenLimit(run, WORKER, r, Denied);
    run := ThenSpawn(run, SWEEPER, Scanning);
    run := ThenSelect(run, SWEEPER, StuckProcessing, now);
  }

  /** The worker writes its denial, and the next worker claims the row. */
  lemma ReclaimedRun(run: seq<Cell>, r0: Row, now: Nanos) returns (longer: seq<Cell>, c: Cell)
    requires IsRun(run) && |run| > 0 && r0.status == Processing && r0.attempts == 1
    requires var c0 := run[|run| - 1];
             && c0.row == Some(r0) && c0.actors.Keys == {CREATOR, WORKER, SWEEPER}
             && c0.actors[WORKER] == Rescheduling(r0) && c0.actors[SWEEPER] == TimingOut(r0, now)
    ensures IsRun(longer) && |longer| > |run| && longer[..|run|] == run && longer[|longer| - 1] == c
    ensures c.row.Some? && c.row.value.status == Processing && c.row.value.attempts == 2 && c.row.value.updatedAt == now
    ensures SWEEPER in c.actors && c.actors[SWEEPER] == TimingOut(r0, now)
    ensures NEXT_WORKER in c.actors && c.actors[NEXT_WORKER].LoggingProcessing?
  {
    hide IsRun, Apply;
    var denied := ThenWrite(run, WORKER, 0, DenialWrite(r0, 0));
    var spawned := ThenSpawn(denied, NEXT_WORKER, Claiming);
    longer := ThenClaim(spawned, NEXT_WORKER, now);
    PrefixOfPrefix(run, denied, spawned);
    PrefixOfPrefix(run, spawned, longer);
    c := longer[|longer| - 1];
  }

  /**
   * A reconciler selects the row after ten minutes; before it writes, the worker puts the row back to
   * retrying and another worker claims it. The sweep's write then fails that fresh claim.
   */
  lemma StaleSweepRun() returns (last: seq<Cell>, i: nat, j: nat, r0: Row, r: Row, now: Nanos)
    ensures FailsFreshClaim(last, i, j, r0, r, now) && j == |last| - 1
    ensures last[j].row.value.status == Failed && NEXT_WORKER in last[j].actors && last[j].actors[NEXT_WORKER].LoggingProcessing?
  {
    hide IsRun, Apply;
    now := 10 * MINUTE;
    var run;
    run, r0 := SelectedRun(now);
    i := |run| - 1;
    var longer, c := ReclaimedRun(run, r0, now);
    assert longer[i] == longer[..|run|][i];
    r := c.row.value;
    last := ThenWrite(longer, SWEEPER, now, Write(MarkedFailed(r0, now, "worker_timeout"), Processing, LoggingTimeout));
    j := |longer|;
    assert last[i] == last[..j][i] && last[j - 1] == last[..j][j - 1];
  }

  /** The status-only guard really lets a stale sweep fail a claim that is not stuck. */
  lemma StaleSweepFailsFreshClaim()
    ensures exists run, i, j, n, r, now :: FailsFreshClaim(run, i, j, n, r, now)
  {
    hide FailsFreshClaim;
    var run, i, j, n, r, now := StaleSweepRun();
    assert FailsFreshClaim(run, i, j, n, r, now);
  }

  // ---------------------------------------------------------------------------------------------
  // When a failed row may still be sent
  // ---------------------------------------------------------------------------------------------

  /** A worker that has claimed the row and not yet asked the provider, nor been denied. */
  predicate BeforeSend(pc: Pc) {
    pc.LoggingProcessing? || pc.PublishingProcessing? || pc.AskingLimiter? || pc.ReadyToSend?
  }

  ghost predicate SomeoneBeforeSend(c: Cell) {
    exists a :: a in c.actors && BeforeSend(c.actors[a])
  }

  lemma EntersBeforeSend(c: Cell, e: Event, c': Cell)
    requires Apply(c, e) == Some(c') && e.a in c'.actors
    requires e.a in c.actors ==> !BeforeSend(c.actors[e.a])
    requires !(e.Claim? && c'.row != c.row)
    ensures !BeforeSend(c'.actors[e.a])
  {
  }

  lemma SendStep(c: Cell, e: Event, c': Cell)
    requires Apply(c, e) == Some(c') && !SomeoneBeforeSend(c) && !(e.Claim? && c'.row != c.row)
    ensures !SomeoneBeforeSend(c') && c'.h.sends == c.h.sends
  {
    hide WriteOf, EventOf;
    forall a | a in c'.actors
      ensures !BeforeSend(c'.actors[a])
    {
      if a == e.a {
        EntersBeforeSend(c, e, c');
      } else {
        assert a in c.actors && c.actors[a] == c'.actors[a];
      }
    }
  }

  lemma FailedStep(c: Cell, c': Cell)
    requires Next(c, c') && c'.row == c.row && !SomeoneBeforeSend(c)
    ensures !SomeoneBeforeSend(c') && c'.h.sends == c.h.sends
  {
    hide Apply, SomeoneBeforeSend;
    var e :| Apply(c, e) == Some(c');
    SendStep(c, e, c');
  }

  lemma {:induction false} NoSendAfterFailure(run: seq<Cell>, i: nat, j: nat)
    requires IsRun(run) && i <= j < |run| && run[i].row.Some? && run[i].row.value.status == Failed
    requires !SomeoneBeforeSend(run[i])
    ensures run[j].h.sends == run[i].h.sends && !SomeoneBeforeSend(run[j])
    decreases j
  {
    hide SomeoneBeforeSend;
    if i < j {
      NoSendAfterFailure(run, i, j - 1);
      TerminalRowsAreFrozen(run, i, j - 1);
      TerminalRowsAreFrozen(run, i, j);
      RunStep(run, j - 1);
      FailedStep(run[j - 1], run[j]);
    }
  }

  function StepsToSend(pc: Pc): nat {
    match pc
    case LoggingProcessing(_) => 3
    case PublishingProcessing(_) => 2
    case AskingLimiter(_) => 1
    case _ => 0
  }

  /** One step on a worker's way to the provider. */
  lemma StepTowardsSend(run: seq<Cell>, a: ActorId) returns (next: seq<Cell>)
    requires IsRun(run) && |run| > 0 && a in run[|run| - 1].actors
    requires var pc := run[|run| - 1].actors[a]; pc.LoggingProcessing? || pc.PublishingProcessing? || pc.AskingLimiter?
    ensures IsRun(next) && |next| == |run| + 1 && next[..|run|] == run
    ensures next[|run|].h.sends == run[|run| - 1].h.sends && a in next[|run|].actors
    ensures var pc := next[|run|].actors[a]; pc.PublishingProcessing? || pc.AskingLimiter? || pc.ReadyToSend?
    ensures StepsToSend(next[|run|].actors[a]) < StepsToSend(run[|run| - 1].actors[a])
  {
    hide IsRun, Apply, EventOf, AfterAppend;
    match run[|run| - 1].actors[a]
    case LoggingProcessing(n) =>
      EntryFacts(n);
      next := ThenAppend(run, a);
    case PublishingProcessing(n) => next := ThenPublish(run, a, n);
    case AskingLimiter(n) => next := ThenLimit(run, a, n, Allowed);
  }

  /** A worker on its way to the provider can always get there. */
  lemma {:induction false} OneMoreSend(run: seq<Cell>, a: ActorId) returns (longer: seq<Cell>)
    requires IsRun(run) && |run| > 0 && a in run[|run| - 1].actors && BeforeSend(run[|run| - 1].actors[a])
    ensures IsRun(longer) && |longer| > |run| && longer[..|run|] == run
    ensures longer[|longer| - 1].h.sends == run[|run| - 1].h.sends + 1
    decreases StepsToSend(run[|run| - 1].actors[a])
  {
    hide IsRun, Apply;
    if run[|run| - 1].actors[a].ReadyToSend? {
      longer := ThenSend(run, a, run[|run| - 1].actors[a].n);
    } else {
      var next := StepTowardsSend(run, a);
      longer := OneMoreSend(next, a);
      PrefixOfPrefix(run, next, longer);
    }
  }

  ghost predicate ContinuesTo(run: seq<Cell>, longer: seq<Cell>, j: nat) {
    IsRun(longer) && 0 < |run| <= j < |longer| && longer[..|run|] == run
  }

  /** Some continuation of the run sends once more. */
  ghost predicate MaySendAgain(run: seq<Cell>) {
    exists longer: seq<Cell>, j: nat :: ContinuesTo(run, longer, j) && longer[j].h.sends > run[|run| - 1].h.sends
  }

  /**
   * "Failed" does not mean that no message will go out: after a sweep has failed a row, another send
   * may start exactly when some worker had already claimed it and not yet asked the provider.
   */
  lemma FailedMaySendExactlyWhenClaimed(run: seq<Cell>)
    requires IsRun(run) && run[|run| - 1].row.Some? && run[|run| - 1].row.value.status == Failed
    ensures MaySendAgain(run) <==> SomeoneBeforeSend(run[|run| - 1])
  {
    var last := |run| - 1;
    if SomeoneBeforeSend(run[last]) {
      var a :| a in run[last].actors && BeforeSend(run[last].actors[a]);
      var longer := OneMoreSend(run, a);
      assert ContinuesTo(run, longer, |longer| - 1);
    } else {
      hide SomeoneBeforeSend;
      forall longer: seq<Cell>, j: nat | ContinuesTo(run, longer, j)
        ensures longer[j].h.sends == run[last].h.sends
      {
        assert longer[last] == longer[..|run|][last];
        NoSendAfterFailure(longer, last, j);
      }
    }
  }

  ghost predicate FailedButSentLater(run: seq<Cell>) {
    && IsRun(run) && run[|run| - 1].row.Some? && run[|run| - 1].row.value.status == Failed
    && SomeoneBeforeSend(run[|run| - 1]) && MaySendAgain(run)
  }

  /** It does happen: the fresh claim that a stale sweep failed goes on to the provider. */
  lemma FailedMayBeSentLater()
    ensures exists run :: FailedButSentLater(run)
  {
    hide MaySendAgain;
    var run, i, j, n, r, now := StaleSweepRun();
    assert BeforeSend(run[j].actors[NEXT_WORKER]);
    FailedMaySendExactlyWhenClaimed(run);
    assert FailedButSentLater(run);
  }

  // ---------------------------------------------------------------------------------------------
  // An accepted message whose row is failed
  // ---------------------------------------------------------------------------------------------

  ghost predicate AcceptedButFailed(run: seq<Cell>) {
    && IsRun(run) && run[|run| - 1].row.Some? && run[|run| - 1].row.value.status == Failed
    && run[|run| - 1].h.successes == 1
  }

  lemma AcceptedRun() returns (run: seq<Cell>, r: Row)
    ensures IsRun(run) && |run| > 0 && r.status == Processing && r.updatedAt == 0
    ensures var c := run[|run| - 1]; c.row == Some(r) && c.actors.Keys == {CREATOR, WORKER} && c.h.successes >= 1
  {
    hide IsRun, Apply;
    run, r := AskingRun();
    run := ThenLimit(run, WORKER, r, Allowed);
    run := ThenSend(run, WORKER, r);
    run := ThenAnswer(run, WORKER, r, DeliveryResult(true, false, ""));
  }

  /** A worker that stops between the provider's answer and its write leaves an accepted message to the sweep. */
  lemma AcceptedMayBeFailed()
    ensures exists run :: AcceptedButFailed(run)
  {
    hide IsRun, Apply;
    var now := 10 * MINUTE;
    var run, r := AcceptedRun();
    run := ThenSpawn(run, SWEEPER, Scanning);
    run := ThenSelect(run, SWEEPER, StuckProcessing, now);
    run := ThenWrite(run, SWEEPER, now, Write(MarkedFailed(r, now, "worker_timeout"), Processing, LoggingTimeout));
    BoundedSends(run, |run| - 1);
    assert AcceptedButFailed(run);
  }
}
