/**
 * Which numbers of attempts, denials and sends a live notification can have. `attempts` is not bounded
 * by five: denials put a row back to retrying without looking at it, so it grows with them.
 */
module Attempts {
  import opened Domain
  import opened RetryPolicy
  import opened Protocol
  import opened Preservation
  import opened Guarantees
  import opened Witnesses

  /** A live notification with these numbers. */
  predicate Live(c: Cell, attempts: nat, denials: nat, sends: nat) {
    && c.row.Some? && !IsTerminal(c.row.value.status) && c.row.value.attempts == attempts
    && c.h.denials == denials && c.h.sends == sends
  }

  /** A row that a worker can claim, with no worker at it. */
  predicate Ready(c: Cell, attempts: nat, denials: nat, sends: nat) {
    && c.row.Some? && Claimable(c.row.value) && c.row.value.attempts == attempts
    && c.h.denials == denials && c.h.sends == sends
    && (WORKER in c.actors ==> c.actors[WORKER].Stopped?)
  }

  /** A worker has claimed the row and stands before the rate limiter. */
  predicate Asking(c: Cell, attempts: nat, denials: nat, sends: nat) {
    && c.row.Some? && c.row.value.status == Processing && c.row.value.attempts == attempts
    && c.h.denials == denials && c.h.sends == sends
    && WORKER in c.actors && c.actors[WORKER] == AskingLimiter(c.row.value)
  }

  // ---------------------------------------------------------------------------------------------
  // Runs that reach the numbers
  // ---------------------------------------------------------------------------------------------

  lemma ClaimOnce(run: seq<Cell>, a: nat, d: nat, s: nat) returns (longer: seq<Cell>)
    requires IsRun(run) && |run| > 0 && Ready(run[|run| - 1], a, d, s) && a < MAX_INT32
    ensures IsRun(longer) && |longer| > 0 && Asking(longer[|longer| - 1], a + 1, d, s)
  {
    hide IsRun, Apply, EventOf, AfterAppend;
    var r := ClaimedRow(run[|run| - 1].row.value, 0);
    EntryFacts(r);
    longer := ThenSpawn(run, WORKER, Claiming);
    longer := ThenClaim(longer, WORKER, 0);
    longer := ThenAppend(longer, WORKER);
    longer := ThenPublish(longer, WORKER, r);
  }

  /** A denial puts the row back, whatever its attempts. */
  lemma DenyOnce(run: seq<Cell>, a: nat, d: nat, s: nat) returns (longer: seq<Cell>)
    requires IsRun(run) && |run| > 0 && Asking(run[|run| - 1], a, d, s)
    ensures IsRun(longer) && |longer| > 0 && Ready(longer[|longer| - 1], a, d + 1, s)
  {
    hide IsRun, Apply;
    var r := run[|run| - 1].row.value;
    longer := ThenLimit(run, WORKER, r, Denied);
    longer := ThenWrite(longer, WORKER, 0, DenialWrite(r, 0));
    longer := ThenCrash(longer, WORKER);
  }

  lemma SendOnce(run: seq<Cell>, a: nat, d: nat, s: nat) returns (longer: seq<Cell>)
    requires IsRun(run) && |run| > 0 && Asking(run[|run| - 1], a, d, s)
    ensures IsRun(longer) && |longer| > 0
    ensures var c := longer[|longer| - 1];
            Live(c, a, d, s + 1) && c.row.value.status == Processing && WORKER in c.actors && c.actors[WORKER] == Sending(c.row.value)
  {
    hide IsRun, Apply;
    var r := run[|run| - 1].row.value;
    longer := ThenLimit(run, WORKER, r, Allowed);
    longer := ThenSend(longer, WORKER, r);
  }

  lemma TransientWrite(r: Row)
    requires r.attempts < DEFAULT_MAX_ATTEMPTS
    ensures var failure := DeliveryResult(false, true, ""); var w := OutcomeWrite(r, failure, 0);
            && WriteOf(Applying(r, failure), 0) == Some(w) && w.source == Processing
            && w.n.status == Retrying && w.n.attempts == r.attempts
  {
  }

  /** A transient failure puts the row back while its attempts are below five. */
  lemma FailOnce(run: seq<Cell>, a: nat, d: nat, s: nat) returns (longer: seq<Cell>)
    requires IsRun(run) && |run| > 0 && Asking(run[|run| - 1], a, d, s) && a < DEFAULT_MAX_ATTEMPTS
    ensures IsRun(longer) && |longer| > 0 && Ready(longer[|longer| - 1], a, d, s + 1)
  {
    hide IsRun, Apply, WriteOf, OutcomeWrite;
    longer := SendOnce(run, a, d, s);
    var r, failure := longer[|longer| - 1].row.value, DeliveryResult(false, true, "");
    TransientWrite(r);
    longer := ThenAnswer(longer, WORKER, r, failure);
    longer := ThenWrite(longer, WORKER, 0, OutcomeWrite(r, failure, 0));
    longer := ThenCrash(longer, WORKER);
  }

  lemma QueuedIsReady(c: Cell)
    requires c.row == Some(Moved(NewRow(None, 0), Queued, 0)) && c.actors.Keys == {CREATOR} && c.h.denials == c.h.sends == 0
    ensures Ready(c, 0, 0, 0)
  {
  }

  /** Up to four transient failures, and then any number of denials. */
  lemma {:induction false} ReadyRun(d: nat, s: nat) returns (run: seq<Cell>)
    requires s < DEFAULT_MAX_ATTEMPTS && s + d <= MAX_INT32
    ensures IsRun(run) && |run| > 0 && Ready(run[|run| - 1], s + d, d, s)
    decreases d, s
  {
    hide IsRun, Ready, Asking;
    if d > 0 {
      run := ReadyRun(d - 1, s);
      run := ClaimOnce(run, s + d - 1, d - 1, s);
      run := DenyOnce(run, s + d, d - 1, s);
    } else if s > 0 {
      run := ReadyRun(0, s - 1);
      run := ClaimOnce(run, s - 1, 0, s - 1);
      run := FailOnce(run, s, 0, s - 1);
    } else {
      run := QueuedRun();
      QueuedIsReady(run[|run| - 1]);
    }
  }

  lemma ReadyIsLive(c: Cell, a: nat, d: nat, s: nat)
    ensures Ready(c, a, d, s) || Asking(c, a, d, s) ==> Live(c, a, d, s)
  {
  }

  ghost predicate Reaches(run: seq<Cell>, attempts: nat, denials: nat, sends: nat) {
    IsRun(run) && Live(run[|run| - 1], attempts, denials, sends)
  }

  lemma NumbersAreReached(a: nat, d: nat, s: nat) returns (run: seq<Cell>)
    requires d + s <= a <= d + s + 1 && a <= d + DEFAULT_MAX_ATTEMPTS && a <= MAX_INT32
    ensures Reaches(run, a, d, s)
  {
    hide Ready, Asking, Live;
    if s == DEFAULT_MAX_ATTEMPTS {
      run := ReadyRun(d, s - 1);
      run := ClaimOnce(run, a - 1, d, s - 1);
      run := SendOnce(run, a, d, s - 1);
    } else {
      run := ReadyRun(d, s);
      if a > d + s {
        run := ClaimOnce(run, a - 1, d, s);
      }
      ReadyIsLive(run[|run| - 1], a, d, s);
    }
  }

  // ---------------------------------------------------------------------------------------------
  // The exact bounds
  // ---------------------------------------------------------------------------------------------

  lemma ClaimsStepWithin(c: Cell, e: Event, c': Cell)
    requires Apply(c, e) == Some(c') && c.h.claims <= MAX_INT32
    requires c.row.Some? && Claimable(c.row.value) ==> c.row.value.attempts == c.h.claims
    ensures c'.h.claims <= MAX_INT32
  {
    hide WriteOf, AfterAppend, AfterGet, AfterSelect, Written;
  }

  /** The attempts column never overflows: a claim that would is refused. */
  lemma {:induction false} ClaimsFitTheColumn(run: seq<Cell>, i: nat)
    requires IsRun(run) && i < |run|
    ensures run[i].h.claims <= 0x7fff_ffff
  {
    if i == 0 {
      RunStart(run);
    } else {
      ClaimsFitTheColumn(run, i - 1);
      RunStep(run, i - 1);
      if run[i - 1].row.Some? {
        AttemptsCountClaims(run, i - 1);
      }
      hide Apply, IsRun;
      var e :| Apply(run[i - 1], e) == Some(run[i]);
      ClaimsStepWithin(run[i - 1], e, run[i]);
    }
  }

  /**
   * Exactly these numbers of attempts, denials and sends occur in live notifications: every attempt
   * but the last was denied or sent, and attempts exceed denials by at most five.
   */
  lemma ReachableNumbers(a: nat, d: nat, s: nat)
    ensures (exists run :: Reaches(run, a, d, s)) <==>
            d + s <= a <= d + s + 1 && a <= d + 5 && a <= 0x7fff_ffff
  {
    if d + s <= a <= d + s + 1 && a <= d + DEFAULT_MAX_ATTEMPTS && a <= MAX_INT32 {
      var run := NumbersAreReached(a, d, s);
      assert Reaches(run, a, d, s);
    }
    forall run | Reaches(run, a, d, s)
      ensures d + s <= a <= d + s + 1 && a <= d + 5 && a <= 0x7fff_ffff
    {
      var i := |run| - 1;
      BoundedSends(run, i);
      AttemptsCountClaims(run, i);
      ClaimsFitTheColumn(run, i);
    }
  }

  /** Attempts have no bound but the width of their column. */
  lemma AttemptsReachTheColumn(a: nat)
    ensures (exists run, d, s :: Reaches(run, a, d, s)) <==> a <= 0x7fff_ffff
  {
    hide Reaches;
    if a <= MAX_INT32 {
      ReachableNumbers(a, a, 0);
      var run :| Reaches(run, a, a, 0);
    } else if run, d, s :| Reaches(run, a, d, s) {
      ReachableNumbers(a, d, s);
    }
  }

  /** A run of the protocol ends with attempts within the maximum, if it was denied at most `d` times. */
  ghost predicate WithinMaximum(run: seq<Cell>, d: nat) {
    IsRun(run) && run[|run| - 1].row.Some? && run[|run| - 1].h.denials <= d ==>
      run[|run| - 1].row.value.attempts <= 5
  }

  /** Runs with at most d denials keep attempts within five exactly when d is zero. */
  lemma FiveAttemptsExactlyWithoutDenials(d: nat)
    ensures (forall run: seq<Cell> :: WithinMaximum(run, d)) <==> d == 0
  {
    if d == 0 {
      forall run: seq<Cell>
        ensures WithinMaximum(run, d)
      {
        if IsRun(run) && run[|run| - 1].row.Some? && run[|run| - 1].h.denials <= d {
          AttemptsCountClaims(run, |run| - 1);
          BoundedSends(run, |run| - 1);
        }
      }
    } else {
      var run := NumbersAreReached(6, 1, 4);
      assert !WithinMaximum(run, d);
    }
  }
}
