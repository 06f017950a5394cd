/**
 The token bucket of a connection, in thousandths of a token.  Over a whole run its level is a
 minimum over windows, which says exactly when a request is refused.
 */
module RateLimiters {

  /** The fields of one bucket. */
  datatype Bucket = Bucket(tokensMilli: int, capacityMilli: int, refillPerMs: int, lastMs: int)

  function Full(perSec: int, now: int): Bucket {
    Bucket(perSec * 1000, perSec * 1000, perSec, now)
  }

  function Min(a: int, b: int): int { if a < b then a else b }

  function Refilled(b: Bucket, now: int): int {
    Min(b.capacityMilli, b.tokensMilli + (now - b.lastMs) * b.refillPerMs)
  }

  predicate Admits(b: Bucket, now: int) {
    Refilled(b, now) >= 1000
  }

  function Spend(b: Bucket, now: int): Bucket {
    b.(tokensMilli := Refilled(b, now) - (if Admits(b, now) then 1000 else 0), lastMs := now)
  }

  class RateLimiter {
    var tokensMilli: int
    var capacityMilli: int
    var refillPerMs: int
    var lastMs: int

    function State(): Bucket
      reads this
    {
      Bucket(tokensMilli, capacityMilli, refillPerMs, lastMs)
    }

    constructor (perSec: int, nowMs: int)
      ensures State() == Full(perSec, nowMs)
    {
      tokensMilli, capacityMilli, refillPerMs, lastMs := perSec * 1000, perSec * 1000, perSec, nowMs;
    }

    method Allow(nowMs: int) returns (allowed: bool)
      modifies this
      ensures allowed == Admits(old(State()), nowMs) && State() == Spend(old(State()), nowMs)
    {
      tokensMilli := tokensMilli + (nowMs - lastMs) * refillPerMs;
      if tokensMilli > capacityMilli {
        tokensMilli := capacityMilli;
      }
      lastMs := nowMs;
      if tokensMilli >= 1000 {
        tokensMilli := tokensMilli - 1000;
        return true;
      }
      return false;
    }
  }

  // ---------- a run of one bucket ----------

  /**
   `times[0]` is when the bucket is made; request n, for n >= 1, comes at `times[n]`.  `After` is the
   bucket when the requests up to n have been served.
   */
  ghost function After(perSec: int, times: seq<int>, n: nat): Bucket
    requires n < |times|
  {
    if n == 0 then Full(perSec, times[0]) else Spend(After(perSec, times, n - 1), times[n])
  }

  ghost predicate Admitted(perSec: int, times: seq<int>, n: nat)
    requires n < |times|
  {
    n > 0 && Admits(After(perSec, times, n - 1), times[n])
  }

  /** The level that request n finds. */
  ghost function Level(perSec: int, times: seq<int>, n: nat): int
    requires n < |times|
  {
    if n == 0 then perSec * 1000 else Refilled(After(perSec, times, n - 1), times[n])
  }

  /** How many of the requests i, ..., n - 1 were admitted. */
  ghost function Count(perSec: int, times: seq<int>, i: nat, n: nat): nat
    requires i <= n <= |times|
    decreases n
  {
    if n == i then 0 else Count(perSec, times, i, n - 1) + (if Admitted(perSec, times, n - 1) then 1 else 0)
  }

  /** What is left at request n of a bucket that was full at `times[i]` and never overflowed since. */
  ghost function Window(perSec: int, times: seq<int>, i: nat, n: nat): int
    requires i <= n < |times|
  {
    perSec * 1000 + (times[n] - times[i]) * perSec - 1000 * Count(perSec, times, i, n)
  }

  lemma {:induction false} Fields(perSec: int, times: seq<int>, n: nat)
    requires n < |times|
    ensures
      var b := After(perSec, times, n);
      && b.capacityMilli == perSec * 1000 && b.refillPerMs == perSec && b.lastMs == times[n]
      && b.tokensMilli == Level(perSec, times, n) - (if Admitted(perSec, times, n) then 1000 else 0)
  {
    if n > 0 { Fields(perSec, times, n - 1); }
  }

  lemma Distribute(a: int, b: int, c: int, p: int)
    ensures (c - a) * p == (c - b) * p + (b - a) * p
  {
  }

  lemma WindowStep(perSec: int, times: seq<int>, i: nat, n: nat)
    requires i < n < |times|
    ensures
      Window(perSec, times, i, n) == Window(perSec, times, i, n - 1)
        - (if Admitted(perSec, times, n - 1) then 1000 else 0) + (times[n] - times[n - 1]) * perSec
  {
  }

  lemma LevelStep(perSec: int, times: seq<int>, n: nat)
    requires 0 < n < |times|
    ensures
      Level(perSec, times, n) == Min(perSec * 1000, Level(perSec, times, n - 1)
        - (if Admitted(perSec, times, n - 1) then 1000 else 0) + (times[n] - times[n - 1]) * perSec)
  {
    Fields(perSec, times, n - 1);
  }

  /** The level a request finds is the least of its windows, whatever the clock did. */
  lemma {:induction false} LevelIsLeastWindow(perSec: int, times: seq<int>, n: nat)
    requires n < |times|
    ensures forall i :: 0 <= i <= n ==> Level(perSec, times, n) <= Window(perSec, times, i, n)
    ensures exists i :: 0 <= i <= n && Level(perSec, times, n) == Window(perSec, times, i, n)
  {
    hide Level, Admitted;
    if n == 0 {
      Outset(perSec, times);
    } else {
      LevelIsLeastWindow(perSec, times, n - 1);
      LevelStep(perSec, times, n);
      assert Window(perSec, times, n, n) == perSec * 1000;
      forall i | 0 <= i <= n ensures Level(perSec, times, n) <= Window(perSec, times, i, n) {
        if i < n { WindowStep(perSec, times, i, n); }
      }
      var i :| 0 <= i <= n - 1 && Level(perSec, times, n - 1) == Window(perSec, times, i, n - 1);
      WindowStep(perSec, times, i, n);
      var level := Level(perSec, times, n);
      assert level == Window(perSec, times, i, n) || level == Window(perSec, times, n, n);
    }
  }

  lemma Outset(perSec: int, times: seq<int>)
    requires times != []
    ensures Level(perSec, times, 0) == Window(perSec, times, 0, 0) == perSec * 1000
  {
  }

  /** Admitting request n would leave some window with more than its rate and one burst allow. */
  ghost predicate WouldExceed(perSec: int, times: seq<int>, i: nat, n: nat)
    requires i <= n < |times|
  {
    1000 * (Count(perSec, times, i, n) + 1) > perSec * 1000 + (times[n] - times[i]) * perSec
  }

  /** A request is refused exactly when admitting it would exceed the allowance of some window. */
  lemma RefusedExactly(perSec: int, times: seq<int>, n: nat)
    requires 0 < n < |times|
    ensures !Admitted(perSec, times, n) <==> exists i :: 0 <= i <= n && WouldExceed(perSec, times, i, n)
  {
    LevelIsLeastWindow(perSec, times, n);
    assert Admitted(perSec, times, n) <==> Level(perSec, times, n) >= 1000;
    hide Level, Admitted, Count;
    forall i | 0 <= i <= n ensures WouldExceed(perSec, times, i, n) <==> Window(perSec, times, i, n) < 1000 {
    }
    if Level(perSec, times, n) < 1000 {
      var i :| 0 <= i <= n && Level(perSec, times, n) == Window(perSec, times, i, n);
      assert WouldExceed(perSec, times, i, n);
    }
  }

  ghost predicate Monotone(times: seq<int>) {
    forall i, j :: 0 <= i <= j < |times| ==> times[i] <= times[j]
  }

  lemma Product(a: int, p: int)
    requires 0 <= a && 0 <= p
    ensures 0 <= a * p
  {
  }

  /** No window ever gets more than one burst and the refill of its length. */
  lemma {:induction false} WindowBound(perSec: int, times: seq<int>, i: nat, n: nat)
    requires i <= n < |times| && Monotone(times) && perSec >= 0
    ensures 1000 * Count(perSec, times, i, n + 1) <= perSec * 1000 + (times[n] - times[i]) * perSec
    decreases n
  {
    LevelIsLeastWindow(perSec, times, n);
    assert Admitted(perSec, times, n) ==> Level(perSec, times, n) >= 1000;
    hide Level, Admitted;
    Product(times[n] - times[i], perSec);
    assert Level(perSec, times, n) <= Window(perSec, times, i, n);
    assert Count(perSec, times, i, n + 1) == Count(perSec, times, i, n) + (if Admitted(perSec, times, n) then 1 else 0);
    if i < n && !Admitted(perSec, times, n) {
      WindowBound(perSec, times, i, n - 1);
      Distribute(times[i], times[n - 1], times[n], perSec);
      Product(times[n] - times[n - 1], perSec);
    }
  }

  /** A client that leaves the time of one token between its requests is never refused. */
  lemma {:induction false} SpacedNeverRefused(perSec: int, times: seq<int>, n: nat)
    requires 0 < n < |times| && perSec >= 1 && times[0] <= times[1]
    requires forall k :: 1 <= k < |times| - 1 ==> (times[k + 1] - times[k]) * perSec >= 1000
    ensures Admitted(perSec, times, n)
    decreases n
  {
    LevelStep(perSec, times, n);
    if n == 1 {
      Product(times[1] - times[0], perSec);
    } else {
      SpacedNeverRefused(perSec, times, n - 1);
      assert (times[n - 1 + 1] - times[n - 1]) * perSec >= 1000;
    }
    assert Level(perSec, times, n) >= 1000;
  }

  /** With a clock that does not go back, the level stays between nothing and a full bucket. */
  lemma {:induction false} LevelInRange(perSec: int, times: seq<int>, n: nat)
    requires n < |times| && Monotone(times) && perSec >= 0
    ensures 0 <= After(perSec, times, n).tokensMilli <= perSec * 1000
  {
    if n > 0 {
      LevelInRange(perSec, times, n - 1);
      Fields(perSec, times, n - 1);
      Product(times[n] - times[n - 1], perSec);
    }
  }
}
