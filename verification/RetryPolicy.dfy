/** When a failed task is run again: exponential backoff with jitter, in int64 nanoseconds. */
module RetryPolicy {
  import opened Domain

  const DEFAULT_MAX_ATTEMPTS := 5
  const BACKOFF_BASE: Nanos := 30 * SECOND
  const RATE_LIMIT_BACKOFF: Nanos := 1 * SECOND
  const MAX_RETRY_JITTER: Nanos := 30 * SECOND
  const OVERDUE_RETRYING_THRESHOLD: Nanos := 10 * MINUTE

  const TWO_63: int := 0x8000_0000_0000_0000
  const TWO_64: int := 0x1_0000_0000_0000_0000

  function Pow2(n: nat): (p: nat)
    ensures p >= 1
  {
    if n == 0 then 1 else 2 * Pow2(n - 1)
  }

  /** Go's int64 arithmetic keeps the low 64 bits of the mathematical result. */
  function Wrap64(x: int): (r: int)
    ensures -TWO_63 <= r < TWO_63
    ensures -TWO_63 <= x < TWO_63 ==> r == x
  {
    (x + TWO_63) % TWO_64 - TWO_63
  }

  /** The delay of attempt `attempts`; the shift and the product wrap as int64 operations do. */
  function BackoffFor(attempts: int): Nanos {
    if attempts <= 0 then BACKOFF_BASE
    else Wrap64(BACKOFF_BASE * Wrap64(Pow2(attempts - 1)))
  }

  /** The deterministic delay by cause. */
  function RetryDelayFor(attempts: int, err: Error): Nanos {
    if err.OutboundRateLimited? then RATE_LIMIT_BACKOFF else BackoffFor(attempts)
  }

  /** The exclusive upper bound of the jitter drawn on top of a positive base. */
  function JitterBound(base: Nanos): Nanos {
    if base > MAX_RETRY_JITTER then MAX_RETRY_JITTER else base
  }

  /** The delay handed to the queue, for a draw in [0, JitterBound(base)). */
  function WithJitter(base: Nanos, draw: Nanos): Nanos {
    if base <= 0 then base else Wrap64(base + draw)
  }

  function RetryDelay(n: int, err: Error, draw: Nanos): Nanos {
    WithJitter(RetryDelayFor(n, err), draw)
  }

  /** A draw the random source can return for the delay of attempt n. */
  predicate Drawable(n: int, err: Error, draw: Nanos) {
    0 <= draw && (var base := RetryDelayFor(n, err); base <= 0 || draw < JitterBound(base))
  }

  lemma {:induction false} Pow2Monotone(n: nat, m: nat)
    requires n <= m
    ensures Pow2(n) <= Pow2(m)
    ensures n < m ==> 2 * Pow2(n) <= Pow2(m)
  {
    if n < m {
      Pow2Monotone(n, m - 1);
    }
  }

  lemma Pow2Table()
    ensures Pow2(0) == 1 && Pow2(1) == 2 && Pow2(2) == 4 && Pow2(3) == 8 && Pow2(4) == 16
    ensures Pow2(28) == 0x1000_0000
    ensures Pow2(29) == 0x2000_0000
  {
    assert Pow2(4) == 16;
    assert Pow2(8) == 256;
    assert Pow2(12) == 0x1000;
    assert Pow2(16) == 0x1_0000;
    assert Pow2(20) == 0x10_0000;
    assert Pow2(24) == 0x100_0000;
    assert Pow2(28) == 0x1000_0000;
  }

  /**
   * The code computes the documented schedule 30s * 2^(n-1) exactly when n <= 29: from attempt 30 on
   * the product no longer fits in an int64.
   */
  lemma BackoffExactUpTo29(n: nat)
    requires n >= 1
    ensures BackoffFor(n) == BACKOFF_BASE * Pow2(n - 1) <==> n <= 29
    ensures n <= 29 ==> BackoffFor(n) >= BACKOFF_BASE
  {
    hide Pow2, Wrap64;
    Pow2Table();
    if n <= 29 {
      Pow2Monotone(n - 1, 28);
      Pow2Monotone(0, n - 1);
      assert BACKOFF_BASE * Pow2(n - 1) <= BACKOFF_BASE * 0x1000_0000;
    } else {
      Pow2Monotone(29, n - 1);
      assert BACKOFF_BASE * Pow2(n - 1) >= BACKOFF_BASE * 0x2000_0000;
    }
  }

  /** The four delays a retrying row can carry, besides the rate-limit one. */
  lemma BackoffTable()
    ensures BackoffFor(1) == 30 * SECOND && BackoffFor(2) == 60 * SECOND
    ensures BackoffFor(3) == 120 * SECOND && BackoffFor(4) == 240 * SECOND
    ensures BackoffFor(5) == 480 * SECOND && BackoffFor(6) == 960 * SECOND
  {
    Pow2Table();
    assert Pow2(5) == 32;
    BackoffExactUpTo29(1);
    BackoffExactUpTo29(2);
    BackoffExactUpTo29(3);
    BackoffExactUpTo29(4);
    BackoffExactUpTo29(5);
    BackoffExactUpTo29(6);
  }

  lemma RowBackoffBounds(attempts: nat)
    requires 1 <= attempts < DEFAULT_MAX_ATTEMPTS
    ensures 30 * SECOND <= BackoffFor(attempts) <= 240 * SECOND
  {
    BackoffTable();
  }

  lemma BackoffRange(n: int)
    requires n <= 29
    ensures BACKOFF_BASE <= BackoffFor(n) <= BACKOFF_BASE * 0x1000_0000
  {
    if n >= 1 {
      hide Pow2, BackoffFor;
      BackoffExactUpTo29(n);
      Pow2Table();
      Pow2Monotone(n - 1, 28);
    }
  }

  /** Up to attempt 29 jitter never shortens a delay, adds less than the ceiling and never overflows. */
  lemma JitterWithinBounds(n: int, err: Error, draw: Nanos)
    requires n <= 29 && Drawable(n, err, draw)
    ensures RetryDelay(n, err, draw) == RetryDelayFor(n, err) + draw
    ensures RetryDelayFor(n, err) <= RetryDelay(n, err, draw) < RetryDelayFor(n, err) + MAX_RETRY_JITTER
  {
    BackoffRange(n);
    hide BackoffFor;
  }

  /**
   * The delays the queue may be told, in nanoseconds: up to attempt 29 exactly those from the base on,
   * which is one second after a denial and 30 s times a power of two otherwise, up to the base plus
   * 30 s, or to twice the base when that is less.
   */
  lemma DelaysExactly(n: int, err: Error, delay: Nanos)
    requires n <= 29
    ensures (exists draw :: Drawable(n, err, draw) && RetryDelay(n, err, draw) == delay) <==>
            var base := if err.OutboundRateLimited? then 1_000_000_000
                        else 30_000_000_000 * Pow2(if n <= 1 then 0 else n - 1);
            base <= delay < base + if base < 30_000_000_000 then base else 30_000_000_000
  {
    if n >= 1 {
      BackoffExactUpTo29(n);
    }
    BackoffRange(n);
    hide BackoffFor, Pow2, RetryDelay;
    var draw := delay - RetryDelayFor(n, err);
    if Drawable(n, err, draw) {
      JitterWithinBounds(n, err, draw);
    }
    forall d | Drawable(n, err, d)
      ensures RetryDelay(n, err, d) == RetryDelayFor(n, err) + d
    {
      JitterWithinBounds(n, err, d);
    }
  }

  lemma BackoffDoubles(n: nat, m: nat)
    requires 1 <= n < m <= 29
    ensures 2 * BackoffFor(n) <= BackoffFor(m) && BackoffFor(n) >= BACKOFF_BASE
  {
    hide Pow2, Wrap64, BackoffFor;
    var p, q := Pow2(n - 1), Pow2(m - 1);
    assert BackoffFor(n) == BACKOFF_BASE * p && BackoffFor(n) >= BACKOFF_BASE by { BackoffExactUpTo29(n); }
    assert BackoffFor(m) == BACKOFF_BASE * q by { BackoffExactUpTo29(m); }
    assert 2 * p <= q by { Pow2Monotone(n - 1, m - 1); }
  }

  /** Whatever is drawn, a later attempt waits strictly longer than an earlier one. */
  lemma LaterAttemptsWaitLonger(n: nat, m: nat, err: Error, draw: Nanos, draw': Nanos)
    requires 1 <= n < m <= 29 && !err.OutboundRateLimited?
    requires Drawable(n, err, draw) && Drawable(m, err, draw')
    ensures RetryDelay(n, err, draw) < RetryDelay(m, err, draw')
  {
    JitterWithinBounds(n, err, draw);
    JitterWithinBounds(m, err, draw');
    BackoffDoubles(n, m);
  }

  /** How far ahead of its own timestamp a retrying row puts next_retry_at. */
  function RowDelay(err: Error, attempts: int): Nanos {
    RetryDelayFor(attempts, err)
  }

  /**
   * The queue's own retry against the safety net. The row write sets next_retry_at to the
   * deterministic delay of the row's attempts (or of a rate-limit denial); the queue then waits
   * RetryDelay(n). This says that, measured from the row write, the queue fires before the row can
   * satisfy next_retry_at < now - 10min, for every cause, attempt count and draw.
   */
  ghost predicate BeatsTheSweep(n: int) {
    forall err, attempts, draw ::
      1 <= attempts <= 4 && Drawable(n, err, draw)
      ==> RetryDelay(n, err, draw) < RowDelay(err, attempts) + OVERDUE_RETRYING_THRESHOLD
  }

  lemma ShortBackoffIsEarly(n: int, err: Error, attempts: nat, draw: Nanos)
    requires BackoffFor(n) <= OVERDUE_RETRYING_THRESHOLD && 1 <= attempts <= 4 && Drawable(n, err, draw)
    ensures RetryDelay(n, err, draw) < RowDelay(err, attempts) + OVERDUE_RETRYING_THRESHOLD
  {
    RowBackoffBounds(attempts);
    hide BackoffFor;
  }

  lemma BackoffFits(n: int)
    ensures -TWO_63 <= BackoffFor(n) < TWO_63
  {
  }

  /** With a longer backoff some draw is late: the largest one, or none at all when the backoff alone is. */
  lemma LongBackoffIsLate(n: int) returns (draw: Nanos)
    requires BackoffFor(n) > OVERDUE_RETRYING_THRESHOLD
    ensures Drawable(n, ProviderTransient, draw)
    ensures RetryDelay(n, ProviderTransient, draw) >= RowDelay(ProviderTransient, 1) + OVERDUE_RETRYING_THRESHOLD
  {
    BackoffTable();
    hide BackoffFor;
    draw := if BackoffFor(n) < OVERDUE_RETRYING_THRESHOLD + MAX_RETRY_JITTER then MAX_RETRY_JITTER - 1 else 0;
    BackoffFits(n);
  }

  /**
   * The queue is ahead of the sweep at attempt n exactly when the backoff is no longer than the
   * sweep's threshold, for every n, wrapped products included.
   */
  lemma RetriesBeatTheSweepExactly(n: int)
    ensures BeatsTheSweep(n) <==> BackoffFor(n) <= 600_000_000_000
  {
    hide BackoffFor, RetryDelay, Drawable, RowDelay;
    if BackoffFor(n) <= OVERDUE_RETRYING_THRESHOLD {
      forall err, attempts, draw | 1 <= attempts <= 4 && Drawable(n, err, draw)
        ensures RetryDelay(n, err, draw) < RowDelay(err, attempts) + OVERDUE_RETRYING_THRESHOLD
      {
        ShortBackoffIsEarly(n, err, attempts, draw);
      }
    } else {
      var draw := LongBackoffIsLate(n);
      assert Drawable(n, ProviderTransient, draw) && 1 <= 1 <= 4;
    }
  }

  lemma NoAttempts(n: int)
    requires n <= 0
    ensures BackoffFor(n) == BACKOFF_BASE
  {
  }

  /** Before products wrap around, that means up to attempt 5. */
  lemma RetriesBeatTheSweepUpTo5(n: int)
    requires n <= 29
    ensures BeatsTheSweep(n) <==> n <= 5
  {
    hide BackoffFor, BeatsTheSweep;
    RetriesBeatTheSweepExactly(n);
    BackoffTable();
    if n <= 0 {
      NoAttempts(n);
    } else if n < 5 {
      BackoffDoubles(n, 5);
    } else if n > 6 {
      BackoffDoubles(6, n);
    }
  }

  lemma ProductsAround29()
    ensures BackoffFor(29) == 8_053_063_680_000_000_000 && BackoffFor(30) == -2_340_616_713_709_551_616
  {
    Pow2Table();
    hide Pow2;
    assert BackoffFor(30) == Wrap64(BACKOFF_BASE * 0x2000_0000);
  }

  /** The first product that wraps: from attempt 29 to attempt 30 the delay drops from years to nothing. */
  lemma AttemptThirtyIsDueAtOnce(draw: Nanos)
    ensures BackoffFor(29) == 8_053_063_680_000_000_000 && BackoffFor(30) == -2_340_616_713_709_551_616
    ensures BeatsTheSweep(30) && RetryDelay(30, ProviderTransient, draw) == BackoffFor(30)
  {
    hide BackoffFor, BeatsTheSweep, Wrap64;
    ProductsAround29();
    RetriesBeatTheSweepExactly(30);
  }
}
