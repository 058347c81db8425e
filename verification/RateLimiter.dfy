/**
 * The fixed-window rate limiter: one Redis counter per bucket, seeded with an expiry by the first
 * call of a window. Times are milliseconds of the Redis clock.
 */
module RateLimiter {
  import opened Collections
  import opened Domain

  const MILLISECOND: Nanos := 1_000_000

  type Millis = int

  /**
   * The limit, the configured window, and for how many milliseconds after its expiry time a key is
   * still there: 0 when it is gone at that time, 1 when it goes only once the clock is past it.
   */
  datatype Config = Config(limit: int, window: Nanos, linger: nat)

  /** The counter stored at a key, 0 when there is none, and its expiry time. */
  datatype Bucket = Bucket(count: nat, expiry: Option<Millis>)

  datatype Decision = Decision(allowed: bool, retryAfter: Millis)

  const NO_KEY := Bucket(0, None)

  /** A window in milliseconds as PEXPIRE gets it: at least one. */
  function WindowMillis(c: Config): (w: Millis)
    ensures w >= 1
  {
    if c.window < MILLISECOND then 1 else c.window / MILLISECOND
  }

  /** The whole milliseconds of the configured nanoseconds. */
  lemma WindowInMillis(c: Config)
    ensures c.window < 1_000_000 ==> WindowMillis(c) == 1
    ensures c.window >= 1_000_000 ==> WindowMillis(c) * 1_000_000 <= c.window < (WindowMillis(c) + 1) * 1_000_000
  {
  }

  // ---------------------------------------------------------------------------------------------
  // One call
  // ---------------------------------------------------------------------------------------------

  /** Whether the key is still there at time `t`. */
  predicate Alive(c: Config, b: Bucket, t: Millis) {
    b.count > 0 && (b.expiry.Some? ==> t < b.expiry.value + c.linger)
  }

  /** What a call does to the key: it counts in the current window, or opens the next one. */
  function Counted(c: Config, b: Bucket, t: Millis): Bucket {
    if Alive(c, b, t) then b.(count := b.count + 1) else Bucket(1, Some(t + WindowMillis(c)))
  }

  function DecisionOf(c: Config, b: Bucket, t: Millis): Decision {
    if b.count <= c.limit then Decision(true, 0)
    else Decision(false, if b.expiry.Some? then Max(0, b.expiry.value - t) else 0)
  }

  class Redis {
    var value: nat
    var expiry: Option<Millis>

    ghost function Key(): Bucket
      reads this
    {
      Bucket(value, expiry)
    }

    /** Every counter has an expiry, so none lives for ever. */
    ghost predicate Valid()
      reads this
    {
      value > 0 ==> expiry.Some?
    }

    constructor ()
      ensures Valid() && Key() == NO_KEY
    {
      value, expiry := 0, None;
    }

    /** Counts up, from 0 when the key is gone. */
    method Incr(c: Config, t: Millis) returns (current: nat)
      modifies this
      ensures current == value > 0
      ensures Key() == if Alive(c, old(Key()), t) then old(Key()).(count := old(value) + 1) else Bucket(1, None)
    {
      if !(value > 0 && (expiry.None? || t < expiry.value + c.linger)) {
        value, expiry := 0, None;
      }
      value := value + 1;
      current := value;
    }

    method Pexpire(t: Millis, ms: Millis)
      modifies this
      ensures Key() == old(Key()).(expiry := Some(t + ms))
    {
      expiry := Some(t + ms);
    }

    /** The remaining life of a key: -2 without the key, -1 without an expiry. */
    method Pttl(t: Millis) returns (ttl: int)
      ensures value == 0 ==> ttl == -2
      ensures value > 0 && expiry.None? ==> ttl == -1
      ensures value > 0 && expiry.Some? ==> ttl == Max(0, expiry.value - t)
    {
      if value == 0 {
        return -2;
      }
      if expiry.None? {
        return -1;
      }
      ttl := Max(0, expiry.value - t);
    }

    /** The script: one atomic call at time `t`. */
    method Allow(c: Config, t: Millis) returns (allowed: bool, retryAfter: Millis)
      requires Valid()
      modifies this
      ensures Valid() && Key() == Counted(c, old(Key()), t)
      ensures Decision(allowed, retryAfter) == DecisionOf(c, Key(), t)
      ensures var live := old(value) > 0 && t < old(expiry).value + c.linger;
              && value == (if live then old(value) + 1 else 1)
              && expiry == (if live then old(expiry) else Some(t + WindowMillis(c)))
      ensures allowed <==> value <= c.limit
      ensures retryAfter == if allowed || expiry.value <= t then 0 else expiry.value - t
    {
      var current := Incr(c, t);
      if current == 1 {
        Pexpire(t, WindowMillis(c));
      }
      if current > c.limit {
        var ttl := Pttl(t);
        assert ttl >= 0; // the counter always has an expiry
        if ttl < 0 {
          ttl := 0;
        }
        return false, ttl;
      }
      return true, 0;
    }
  }

  // ---------------------------------------------------------------------------------------------
  // Runs of calls on one bucket
  // ---------------------------------------------------------------------------------------------

  ghost predicate Nondecreasing(times: seq<Millis>) {
    forall i, j | 0 <= i < j < |times| :: times[i] <= times[j]
  }

  /** The key after calls at the given times. */
  ghost function After(c: Config, times: seq<Millis>): (b: Bucket)
    ensures times == [] ==> b == NO_KEY
    ensures times != [] ==> b.count > 0 && b.expiry.Some?
  {
    if times == [] then NO_KEY
    else Counted(c, After(c, times[..|times| - 1]), times[|times| - 1])
  }

  /** What call k is told. */
  ghost function Answer(c: Config, times: seq<Millis>, k: nat): Decision
    requires k < |times|
  {
    DecisionOf(c, After(c, times[..k + 1]), times[k])
  }

  /** When the window of call k opened. */
  ghost function Opened(c: Config, times: seq<Millis>, k: nat): Millis
    requires k < |times|
  {
    After(c, times[..k + 1]).expiry.value - WindowMillis(c)
  }

  lemma AfterStep(c: Config, times: seq<Millis>, k: nat)
    requires k < |times|
    ensures After(c, times[..k + 1]) == Counted(c, After(c, times[..k]), times[k])
  {
    var longer := times[..k + 1];
    assert longer[..k] == times[..k];
  }

  /**
   * The window of call k opened with some call j, after every earlier window had closed; all calls
   * since j are in it, and call k is admitted exactly when it is among the window's first `limit`.
   */
  lemma {:induction false} FirstCallsOfAWindow(c: Config, times: seq<Millis>, k: nat) returns (j: nat)
    requires c.linger <= 1 && Nondecreasing(times) && k < |times|
    ensures j <= k && Opened(c, times, k) == times[j]
    ensures times[j] <= times[k] < times[j] + WindowMillis(c) + c.linger
    ensures forall i | j <= i <= k :: Opened(c, times, i) == times[j]
    ensures j > 0 ==> Opened(c, times, j - 1) + WindowMillis(c) + c.linger <= times[j]
    ensures After(c, times[..k + 1]).count == k - j + 1
    ensures Answer(c, times, k).allowed <==> k - j + 1 <= c.limit
    ensures !Answer(c, times, k).allowed ==> Answer(c, times, k).retryAfter == Max(0, times[j] + WindowMillis(c) - times[k])
  {
    hide WindowMillis, After;
    AfterStep(c, times, k);
    if k == 0 || !Alive(c, After(c, times[..k]), times[k]) {
      j := k;
      if k > 0 {
        var _ := FirstCallsOfAWindow(c, times, k - 1);
      }
    } else {
      j := FirstCallsOfAWindow(c, times, k - 1);
    }
  }

  /** How many of the first k calls were admitted at a time in [from, from + window). */
  ghost function AdmittedIn(c: Config, times: seq<Millis>, from: Millis, k: nat): nat
    requires k <= |times|
  {
    if k == 0 then 0
    else AdmittedIn(c, times, from, k - 1)
         + if Answer(c, times, k - 1).allowed && from <= times[k - 1] < from + WindowMillis(c) then 1 else 0
  }

  /** The bound call by call: a window that opened inside the interval is preceded by at most one other. */
  lemma {:induction false} AdmittedSoFar(c: Config, times: seq<Millis>, from: Millis, k: nat)
    requires c.linger <= 1 && Nondecreasing(times) && 0 < k <= |times|
    ensures var limit, last := Max(c.limit, 0), k - 1;
            var counted := Min(limit, After(c, times[..k]).count);
            && (times[last] < from ==> AdmittedIn(c, times, from, k) == 0)
            && (from <= times[last] < from + WindowMillis(c) ==>
                  AdmittedIn(c, times, from, k) <= if Opened(c, times, last) > from then limit + counted else counted)
            && AdmittedIn(c, times, from, k) <= 2 * limit
  {
    var last := k - 1;
    AfterStep(c, times, last);
    var j := FirstCallsOfAWindow(c, times, last);
    if last > 0 {
      AdmittedSoFar(c, times, from, last);
      var i := FirstCallsOfAWindow(c, times, last - 1);
    }
  }

  lemma {:induction false} AdmittedAre(c: Config, times: seq<Millis>, from: Millis, k: nat)
    requires k <= |times|
    ensures AdmittedIn(c, times, from, k) ==
            |set i | 0 <= i < k && Answer(c, times, i).allowed && from <= times[i] < from + WindowMillis(c)|
  {
    hide Answer, WindowMillis;
    var admitted := set i | 0 <= i < k && Answer(c, times, i).allowed && from <= times[i] < from + WindowMillis(c);
    if k > 0 {
      AdmittedAre(c, times, from, k - 1);
      var before := set i | 0 <= i < k - 1 && Answer(c, times, i).allowed && from <= times[i] < from + WindowMillis(c);
      assert admitted == if k - 1 in admitted then before + {k - 1} else before;
    }
  }

  /** Any stretch of time as long as a window, wherever it starts, admits at most twice the limit. */
  lemma TwiceTheLimit(c: Config, times: seq<Millis>, from: Millis)
    requires c.linger <= 1 && Nondecreasing(times)
    ensures |set k | 0 <= k < |times| && Answer(c, times, k).allowed && from <= times[k] < from + WindowMillis(c)|
            <= 2 * Max(c.limit, 0)
  {
    if times != [] {
      AdmittedSoFar(c, times, from, |times|);
    }
    AdmittedAre(c, times, from, |times|);
  }

  // ---------------------------------------------------------------------------------------------
  // Retry-After
  // ---------------------------------------------------------------------------------------------

  /** A duration as whole seconds, rounded up, at least one. */
  function RetryAfterSeconds(d: Nanos): (s: int)
    ensures s >= 1 && s * 1_000_000_000 >= d && (s > 1 ==> (s - 1) * 1_000_000_000 < d)
  {
    var secs := if d > 0 then (d + SECOND - 1) / SECOND else 0;
    if secs < 1 then 1 else secs
  }

  /**
   * A denied caller that waits for the announced seconds is out of the window that denied it, unless
   * the key outlives its expiry time by a millisecond and a whole positive number of seconds remained.
   */
  lemma WaitingLeavesTheWindow(c: Config, times: seq<Millis>, k: nat, later: Millis)
    requires c.linger <= 1 && Nondecreasing(times) && k < |times| && !Answer(c, times, k).allowed
    requires later == times[k] + 1000 * RetryAfterSeconds(Answer(c, times, k).retryAfter * 1_000_000)
    ensures var left := Answer(c, times, k).retryAfter;
            later >= Opened(c, times, k) + WindowMillis(c) + c.linger <==> c.linger == 0 || left == 0 || left % 1000 != 0
  {
    var j := FirstCallsOfAWindow(c, times, k);
    var left := Answer(c, times, k).retryAfter;
    var s := RetryAfterSeconds(left * 1_000_000);
    assert 1000 * s >= left && (s > 1 ==> 1000 * (s - 1) < left);
  }

  /** It does happen: a second to wait, a second waited, and still in the window. */
  lemma WaitingMayNotLeaveTheWindow()
    ensures var c, times := Config(1, 1_000_000_000, 1), [0, 0];
            && !Answer(c, times, 1).allowed && Answer(c, times, 1).retryAfter == 1000
            && RetryAfterSeconds(Answer(c, times, 1).retryAfter * 1_000_000) == 1
            && 1000 < Opened(c, times, 1) + WindowMillis(c) + c.linger
  {
    var c, times := Config(1, 1_000_000_000, 1), [0, 0];
    AfterStep(c, times, 0);
    AfterStep(c, times, 1);
    assert times[..0] == [];
  }
}
