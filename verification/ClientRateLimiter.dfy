/**
 One bucket per client address, shared by the I/O threads under a mutex.  Idle buckets are purged
 when the table grows large; clients cannot tell.
 */
module ClientRateLimiters {
  import opened RateLimiters

  type Client = string

  datatype Slot = Slot(limiter: Bucket, lastSeenMs: int)

  const PURGE_ABOVE: nat := 100000
  const IDLE_MS := 300000
  /** A bucket that is left alone for so long is full. */
  const REFILL_MS := 1000

  /**
   The clock readings of one call: before the mutex is taken, where a new bucket is made, and where
   the bucket is asked.
   */
  datatype Call = Call(client: Client, now: int, made: int, asked: int)

  function Insert(slots: map<Client, Slot>, perSec: int, c: Call): map<Client, Slot> {
    var limiter := if c.client in slots then slots[c.client].limiter else Full(perSec, c.made);
    slots[c.client := Slot(limiter, c.now)]
  }

  predicate Idle(s: Slot, now: int) {
    now - s.lastSeenMs > IDLE_MS
  }

  function Purged(slots: map<Client, Slot>, now: int): map<Client, Slot> {
    map k | k in slots && !Idle(slots[k], now) :: slots[k]
  }

  function Ask(slots: map<Client, Slot>, c: Call): map<Client, Slot>
    requires c.client in slots
  {
    slots[c.client := slots[c.client].(limiter := Spend(slots[c.client].limiter, c.asked))]
  }

  predicate Answer(slots: map<Client, Slot>, c: Call)
    requires c.client in slots
  {
    Admits(slots[c.client].limiter, c.asked)
  }

  /** The table when the bucket is asked, for a given rule of when to purge. */
  function Ready(slots: map<Client, Slot>, perSec: int, c: Call, purges: bool): (ready: map<Client, Slot>)
    ensures c.client in ready
  {
    var slots := Insert(slots, perSec, c);
    if purges && |slots| > PURGE_ABOVE then Purged(slots, c.now) else slots
  }

  class ClientRateLimiter {
    const requestsPerSecond: int
    var buckets: map<Client, Slot>

    constructor (requestsPerSecond: int)
      ensures buckets == map[] && this.requestsPerSecond == requestsPerSecond
    {
      this.requestsPerSecond, buckets := requestsPerSecond, map[];
    }

    /** The bucket of the client itself survives the purge that its call may cause. */
    method Allow(c: Call) returns (allowed: bool)
      modifies this
      ensures allowed == Answer(Ready(old(buckets), requestsPerSecond, c, true), c)
      ensures buckets == Ask(Ready(old(buckets), requestsPerSecond, c, true), c)
    {
      if c.client !in buckets {
        buckets := buckets[c.client := Slot(Full(requestsPerSecond, c.made), c.made)];
      }
      buckets := buckets[c.client := buckets[c.client].(lastSeenMs := c.now)];
      assert buckets == Insert(old(buckets), requestsPerSecond, c);
      if |buckets| > PURGE_ABOVE { Purge(c.now); }
      assert c.client in buckets;
      var slot := buckets[c.client];
      allowed := Admits(slot.limiter, c.asked);
      buckets := buckets[c.client := slot.(limiter := Spend(slot.limiter, c.asked))];
    }

    method Purge(now: int)
      modifies this`buckets
      ensures buckets == Purged(old(buckets), now)
    {
      ghost var all := buckets;
      var rest := buckets.Keys;
      while rest != {}
        invariant rest <= buckets.Keys
        invariant buckets == map k | k in all && (k in rest || !Idle(all[k], now)) :: all[k]
        decreases |rest|
      {
        var k :| k in rest;
        rest := rest - {k};
        if now - buckets[k].lastSeenMs > IDLE_MS {
          buckets := buckets - {k};
        }
      }
    }
  }

  // ---------- purging cannot be observed ----------

  ghost function Answers(slots: map<Client, Slot>, perSec: int, calls: seq<Call>, purges: bool): seq<bool>
    decreases |calls|
  {
    if calls == [] then []
    else
      var ready := Ready(slots, perSec, calls[0], purges);
      [Answer(ready, calls[0])] + Answers(Ask(ready, calls[0]), perSec, calls[1..], purges)
  }

  /**
   Calls in the order in which they hold the mutex.  The clock does not go back, and no call waits
   for the mutex longer than `IDLE_MS - REFILL_MS`.
   */
  ghost predicate InTime(calls: seq<Call>, since: int)
    decreases |calls|
  {
    calls != [] ==>
      && since <= calls[0].made <= calls[0].asked
      && calls[0].now <= calls[0].asked <= calls[0].now + IDLE_MS - REFILL_MS
      && InTime(calls[1..], calls[0].asked)
  }

  ghost predicate Sound(s: Slot, perSec: int, at: int) {
    && s.limiter.capacityMilli == perSec * 1000 && s.limiter.refillPerMs == perSec
    && 0 <= s.limiter.tokensMilli <= perSec * 1000
    && s.limiter.lastMs <= at && s.limiter.lastMs <= s.lastSeenMs + IDLE_MS - REFILL_MS
  }

  /** What the table that purges lacks was full again by `at`. */
  ghost predicate Agree(kept: map<Client, Slot>, all: map<Client, Slot>, perSec: int, at: int) {
    && (forall k :: k in kept ==> k in all && kept[k] == all[k])
    && (forall k :: k in all ==> Sound(all[k], perSec, at))
    && (forall k :: k in all && k !in kept ==> all[k].limiter.lastMs + REFILL_MS <= at)
  }

  lemma Times(p: int, a: int, b: int)
    requires 0 <= p && a <= b
    ensures a * p <= b * p
  {
  }

  /** A bucket left alone for a second is full, so one made anew gives the same answer and ends the same. */
  lemma LikeNew(s: Slot, perSec: int, made: int, asked: int)
    requires perSec >= 0 && Sound(s, perSec, made) && s.limiter.lastMs + REFILL_MS <= made <= asked
    ensures Spend(s.limiter, asked) == Spend(Full(perSec, made), asked)
    ensures Admits(s.limiter, asked) == Admits(Full(perSec, made), asked)
  {
    Times(perSec, REFILL_MS, asked - s.limiter.lastMs);
    Times(perSec, 0, asked - made);
  }

  lemma SpendIsSound(b: Bucket, perSec: int, asked: int, now: int)
    requires perSec >= 0 && b.capacityMilli == perSec * 1000 && b.refillPerMs == perSec
    requires 0 <= b.tokensMilli <= perSec * 1000 && b.lastMs <= asked <= now + IDLE_MS - REFILL_MS
    ensures Sound(Slot(Spend(b, asked), now), perSec, asked)
  {
    Times(perSec, 0, asked - b.lastMs);
  }

  lemma SameAnswer(kept: map<Client, Slot>, all: map<Client, Slot>, perSec: int, c: Call, at: int)
    requires perSec >= 0 && Agree(kept, all, perSec, at) && at <= c.made <= c.asked
    ensures
      var one, other := Ready(kept, perSec, c, true), Ready(all, perSec, c, false);
      && Answer(one, c) == Answer(other, c)
      && Ask(one, c)[c.client] == Ask(other, c)[c.client]
  {
    if c.client in all && c.client !in kept {
      LikeNew(all[c.client], perSec, c.made, c.asked);
    }
  }

  lemma AgreementKept(kept: map<Client, Slot>, all: map<Client, Slot>, perSec: int, c: Call, at: int)
    requires perSec >= 0 && Agree(kept, all, perSec, at)
    requires at <= c.made <= c.asked && c.now <= c.asked <= c.now + IDLE_MS - REFILL_MS
    ensures Agree(Ask(Ready(kept, perSec, c, true), c), Ask(Ready(all, perSec, c, false), c), perSec, c.asked)
  {
    var one, other := Ask(Ready(kept, perSec, c, true), c), Ask(Ready(all, perSec, c, false), c);
    SameAnswer(kept, all, perSec, c, at);
    var b := if c.client in all then all[c.client].limiter else Full(perSec, c.made);
    Times(perSec, 0, 1000);
    SpendIsSound(b, perSec, c.asked, c.now);
    forall k | k in other ensures Sound(other[k], perSec, c.asked) {
      if k != c.client { assert k in all; }
    }
    forall k | k in other && k !in one ensures other[k].limiter.lastMs + REFILL_MS <= c.asked {
      assert k in all && k != c.client;
      if k in kept { assert Idle(kept[k], c.now); }
    }
  }

  lemma {:induction false} AnswersAgree(
      kept: map<Client, Slot>, all: map<Client, Slot>, perSec: int, calls: seq<Call>, at: int)
    requires perSec >= 0 && Agree(kept, all, perSec, at) && InTime(calls, at)
    ensures Answers(kept, perSec, calls, true) == Answers(all, perSec, calls, false)
    decreases |calls|
  {
    hide Agree;
    if calls != [] {
      SameAnswer(kept, all, perSec, calls[0], at);
      AgreementKept(kept, all, perSec, calls[0], at);
      var one := Ask(Ready(kept, perSec, calls[0], true), calls[0]);
      var other := Ask(Ready(all, perSec, calls[0], false), calls[0]);
      AnswersAgree(one, other, perSec, calls[1..], calls[0].asked);
    }
  }

  /** On every sequence of calls, the limiter that purges answers like one that never does. */
  lemma PurgeUnobservable(perSec: int, calls: seq<Call>, start: int)
    requires perSec >= 0 && InTime(calls, start)
    ensures Answers(map[], perSec, calls, true) == Answers(map[], perSec, calls, false)
  {
    AnswersAgree(map[], map[], perSec, calls, start);
  }

  /** A purge happens only above the limit and leaves the caller's own bucket alone. */
  lemma OwnBucketStays(slots: map<Client, Slot>, perSec: int, c: Call)
    ensures
      var ready := Ready(slots, perSec, c, true);
      && ready[c.client] == Insert(slots, perSec, c)[c.client]
      && (forall k :: k in slots && k !in ready ==> Idle(slots[k], c.now) && |Insert(slots, perSec, c)| > PURGE_ABOVE)
  {
  }

  /** Above the limit the table is purged: every bucket left has been asked for within five minutes. */
  lemma PurgeHappens(slots: map<Client, Slot>, perSec: int, c: Call, k: Client)
    requires |Insert(slots, perSec, c)| > PURGE_ABOVE && k in Ready(slots, perSec, c, true)
    ensures c.now - Ready(slots, perSec, c, true)[k].lastSeenMs <= 300000
  {
  }

  // ---------- each client has one bucket of its own ----------

  /**
   The times of client k's bucket: when it is made, at the client's first call, and when each of the
   client's calls asks it.
   */
  function OwnTimes(calls: seq<Call>, k: Client): seq<int> {
    if calls == [] then []
    else
      var before, c := OwnTimes(calls[..|calls| - 1], k), calls[|calls| - 1];
      if c.client != k then before else (if before == [] then [c.made] else before) + [c.asked]
  }

  /** Which of its client's calls is call i, counted from 1. */
  function Place(calls: seq<Call>, i: nat): nat
    requires i < |calls|
    ensures Place(calls, i) > 0
  {
    OwnIsLast(calls[..i], calls[i]);
    assert calls[..i + 1] == calls[..i] + [calls[i]];
    |OwnTimes(calls[..i + 1], calls[i].client)| - 1
  }

  lemma OwnIsLast(calls: seq<Call>, c: Call)
    ensures
      var before := OwnTimes(calls, c.client);
      OwnTimes(calls + [c], c.client) == (if before == [] then [c.made] else before) + [c.asked]
    ensures forall k :: k != c.client ==> OwnTimes(calls + [c], k) == OwnTimes(calls, k)
  {
    assert (calls + [c])[..|calls|] == calls;
  }

  lemma {:induction false} TimesGrow(a: seq<Call>, b: seq<Call>, k: Client)
    ensures OwnTimes(a, k) <= OwnTimes(a + b, k)
    decreases |b|
  {
    if b == [] {
      assert a + b == a;
    } else {
      var n := |b| - 1;
      TimesGrow(a, b[..n], k);
      assert (a + b)[..|a + b| - 1] == a + b[..n];
    }
  }

  lemma {:induction false} SameUpTo(perSec: int, s: seq<int>, t: seq<int>, n: nat)
    requires s <= t && n < |s|
    ensures After(perSec, s, n) == After(perSec, t, n) && (Admitted(perSec, s, n) <==> Admitted(perSec, t, n))
  {
    if n > 0 { SameUpTo(perSec, s, t, n - 1); }
  }

  /** The table of the limiter that never purges has the bucket of every client that has called. */
  ghost predicate Tracks(slots: map<Client, Slot>, perSec: int, done: seq<Call>) {
    forall k :: (k in slots <==> OwnTimes(done, k) != [])
      && (k in slots ==> slots[k].limiter == After(perSec, OwnTimes(done, k), |OwnTimes(done, k)| - 1))
  }

  lemma TracksOne(slots: map<Client, Slot>, perSec: int, done: seq<Call>, c: Call)
    requires Tracks(slots, perSec, done)
    ensures
      var ready, times := Ready(slots, perSec, c, false), OwnTimes(done + [c], c.client);
      && times != [] && (Answer(ready, c) <==> Admitted(perSec, times, |times| - 1))
      && Ask(ready, c)[c.client].limiter == After(perSec, times, |times| - 1)
  {
    var before, times := OwnTimes(done, c.client), OwnTimes(done + [c], c.client);
    OwnIsLast(done, c);
    if before == [] {
      assert times == [c.made, c.asked];
      assert After(perSec, times, 0) == Full(perSec, c.made);
    } else {
      SameUpTo(perSec, before, times, |before| - 1);
    }
  }

  lemma TracksOn(slots: map<Client, Slot>, perSec: int, done: seq<Call>, c: Call)
    requires Tracks(slots, perSec, done)
    ensures Tracks(Ask(Ready(slots, perSec, c, false), c), perSec, done + [c])
  {
    TracksOne(slots, perSec, done, c);
    OwnIsLast(done, c);
  }

  /** What the theorem below says of one call. */
  ghost predicate AsAlone(answer: bool, perSec: int, calls: seq<Call>, i: nat)
    requires i < |calls|
  {
    var times, n := OwnTimes(calls, calls[i].client), Place(calls, i);
    n < |times| && (answer <==> Admitted(perSec, times, n))
  }

  lemma FirstAnswer(slots: map<Client, Slot>, perSec: int, done: seq<Call>, c: Call, rest: seq<Call>)
    requires Tracks(slots, perSec, done)
    ensures AsAlone(Answer(Ready(slots, perSec, c, false), c), perSec, (done + [c]) + rest, |done|)
  {
    hide Tracks, Admitted, Answer, Ready;
    var all := (done + [c]) + rest;
    TracksOne(slots, perSec, done, c);
    var times := OwnTimes(done + [c], c.client);
    TimesGrow(done + [c], rest, c.client);
    assert all[..|done| + 1] == done + [c] && all[|done|] == c;
    SameUpTo(perSec, times, OwnTimes(all, c.client), |times| - 1);
  }

  lemma {:induction false} AnswersFrom(
      slots: map<Client, Slot>, perSec: int, done: seq<Call>, calls: seq<Call>, i: nat)
    requires Tracks(slots, perSec, done) && i < |calls|
    ensures |Answers(slots, perSec, calls, false)| == |calls|
    ensures AsAlone(Answers(slots, perSec, calls, false)[i], perSec, done + calls, |done| + i)
    decreases |calls|
  {
    hide Tracks, AsAlone, Answer, Ready, Ask;
    var c, rest := calls[0], calls[1..];
    assert done + calls == (done + [c]) + rest;
    TracksOn(slots, perSec, done, c);
    if i == 0 { FirstAnswer(slots, perSec, done, c, rest); }
    if rest != [] {
      AnswersFrom(Ask(Ready(slots, perSec, c, false), c), perSec, done + [c], rest, if i == 0 then 0 else i - 1);
    }
  }

  lemma NothingYet(perSec: int)
    ensures Tracks(map[], perSec, [])
  {
  }

  /**
   Each call is answered as one token bucket of its client would, which is made at the client's first call
   and asked at the client's calls alone.  For a table that is never purged that holds whatever the clock does ...
   */
  lemma OneBucketEach(perSec: int, calls: seq<Call>, i: nat)
    requires i < |calls|
    ensures |Answers(map[], perSec, calls, false)| == |calls| && Place(calls, i) < |OwnTimes(calls, calls[i].client)|
    ensures Answers(map[], perSec, calls, false)[i] <==>
      Admitted(perSec, OwnTimes(calls, calls[i].client), Place(calls, i))
  {
    hide Tracks, Admitted;
    NothingYet(perSec);
    AnswersFrom(map[], perSec, [], calls, i);
    assert [] + calls == calls;
  }

  lemma {:induction false} OwnTimesInOrder(calls: seq<Call>, k: Client, since: int, until: int)
    requires Ordered(calls, since, until)
    ensures Monotone(OwnTimes(calls, k)) && forall i :: 0 <= i < |OwnTimes(calls, k)| ==> OwnTimes(calls, k)[i] <= until
  {
    if calls != [] {
      var n := |calls| - 1;
      OwnTimesInOrder(calls[..n], k, since, if n == 0 then since else calls[n - 1].asked);
    }
  }

  /** The calls follow one another in time. */
  ghost predicate Ordered(calls: seq<Call>, since: int, until: int) {
    && since <= until
    && (forall i :: 0 <= i < |calls| ==> since <= calls[i].made <= calls[i].asked <= until)
    && (forall i, j :: 0 <= i < j < |calls| ==> calls[i].asked <= calls[j].made)
  }

  lemma {:induction false} InTimeIsOrdered(calls: seq<Call>, since: int)
    requires InTime(calls, since)
    ensures Ordered(calls, since, if calls == [] then since else calls[|calls| - 1].asked)
    decreases |calls|
  {
    if calls != [] {
      InTimeIsOrdered(calls[1..], calls[0].asked);
      assert forall i :: 1 <= i < |calls| ==> calls[i] == calls[1..][i - 1];
    }
  }

  /**
   ... and for the table that is purged too: so each client is refused exactly when admitting it would exceed
   the allowance of some window of its own calls, and gets no more than that allowance in any.
   */
  lemma EachClientIsLimited(perSec: int, calls: seq<Call>, start: int, i: nat)
    requires perSec >= 0 && InTime(calls, start) && i < |calls|
    ensures |Answers(map[], perSec, calls, true)| == |calls| && Place(calls, i) < |OwnTimes(calls, calls[i].client)|
    ensures
      var admitted := Answers(map[], perSec, calls, true)[i];
      var times, n := OwnTimes(calls, calls[i].client), Place(calls, i);
      && (admitted <==> Admitted(perSec, times, n))
      && (!admitted <==> exists w :: 0 <= w <= n && WouldExceed(perSec, times, w, n))
      && (forall w :: 0 <= w <= n ==>
            1000 * Count(perSec, times, w, n + 1) <= perSec * 1000 + (times[n] - times[w]) * perSec)
  {
    hide Admitted, WouldExceed, Count, Monotone;
    var times, n := OwnTimes(calls, calls[i].client), Place(calls, i);
    OneBucketEach(perSec, calls, i);
    PurgeUnobservable(perSec, calls, start);
    RefusedExactly(perSec, times, n);
    InTimeIsOrdered(calls, start);
    OwnTimesInOrder(calls, calls[i].client, start, calls[|calls| - 1].asked);
    forall w | 0 <= w <= n
      ensures 1000 * Count(perSec, times, w, n + 1) <= perSec * 1000 + (times[n] - times[w]) * perSec
    {
      WindowBound(perSec, times, w, n);
    }
  }

  /** No client affects another: what others call, and when, changes nothing in a client's answers. */
  lemma ClientsAreApart(perSec: int, calls: seq<Call>, start: int, i: nat, others: seq<Call>, start': int, j: nat)
    requires perSec >= 0 && InTime(calls, start) && InTime(others, start') && i < |calls| && j < |others|
    requires calls[i].client == others[j].client && Place(calls, i) == Place(others, j)
    requires OwnTimes(calls, calls[i].client) == OwnTimes(others, others[j].client)
    ensures |Answers(map[], perSec, calls, true)| == |calls| && |Answers(map[], perSec, others, true)| == |others|
    ensures Answers(map[], perSec, calls, true)[i] <==> Answers(map[], perSec, others, true)[j]
  {
    hide Admitted;
    OneBucketEach(perSec, calls, i);
    PurgeUnobservable(perSec, calls, start);
    OneBucketEach(perSec, others, j);
    PurgeUnobservable(perSec, others, start');
  }
}
