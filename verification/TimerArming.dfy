/** The one timerfd of the queue is always armed, or has fired, early enough for the earliest timer. */
module TimerArming {
  import opened OrderedSet
  import opened TimerQueues

  lemma FirstIsLeast(xs: seq<Entry>, e: Entry)
    requires Sorted(xs) && e in xs
    ensures xs != [] && xs[0].when <= e.when && xs[0] in xs
  {
  }

  lemma ArmedFor(when: int, clock: int)
    ensures SetTime(HowMuchTimeFromNow(when, clock), clock) == Armed(Max(when, clock + MIN_DELAY), clock)
  {
  }

  lemma AddInTime(q: Queue, a: nat, clock: int)
    requires Coherent(q) && InTime(q) && a in q.pendingAdds
    ensures InTime(AddInLoop(q, a, clock))
  {
    var q1 := AddInLoop(q, a, clock);
    var when := q.heap[a].expiration;
    ArmedFor(when, clock);
    FirstIsLeast(q1.timers, Entry(when, a));
    if q.timers != [] {
      FirstIsLeast(q1.timers, q.timers[0]);
      FirstIsLeast(q.timers, q.timers[0]);
      if q1.timers[0] != Entry(when, a) { FirstIsLeast(q.timers, q1.timers[0]); }
    }
  }

  lemma CancelInTime(q: Queue, id: TimerId)
    requires Coherent(q) && InTime(q)
    ensures InTime(CancelInLoop(q, id))
  {
    var q1 := CancelInLoop(q, id);
    if q1.timers != [] {
      FirstIsLeast(q1.timers, q1.timers[0]);
      FirstIsLeast(q.timers, q1.timers[0]);
    }
  }

  lemma {:induction false} PerformInTime(q: Queue, xs: seq<Action>)
    requires Coherent(q) && InTime(q)
    ensures InTime(Perform(q, xs))
    decreases |xs|
  {
    if xs != [] {
      ActInTime(q, xs[0]);
      PerformInTime(Act(q, xs[0]), xs[1..]);
    }
  }

  lemma ActInTime(q: Queue, x: Action)
    requires Coherent(q) && InTime(q)
    ensures InTime(Act(q, x))
  {
    match x
    case AddElsewhere(_, _, _) =>
    case Add(when, interval, hint, clock) =>
      CreateKeeps(q, when, interval, hint);
      AddInTime(Create(q, when, interval, hint), Allocate(hint, q.heap.Keys), clock);
    case Cancel(id) =>
      CancelInTime(q, id);
  }

  lemma {:induction false} RunAllInTime(q: Queue, callbacks: seq<seq<Action>>)
    requires Coherent(q) && InTime(q)
    ensures InTime(RunAll(q, callbacks))
    decreases |q.waiting|
  {
    if q.waiting != [] {
      RunKeeps(q);
      PerformInTime(RunNext(q), First(callbacks));
      RunAllInTime(Perform(RunNext(q), First(callbacks)), Rest(callbacks));
    }
  }

  lemma SettleInTime(q: Queue, now: int)
    requires Coherent(q) && InTime(q) && q.batching && q.expired != [] && q.waiting == [] && 0 < now
    ensures InTime(Settle(q, now))
  {
  }

  lemma {:induction false} SettleAllInTime(q: Queue, now: int)
    requires Coherent(q) && InTime(q) && q.batching && q.waiting == [] && 0 < now
    ensures InTime(SettleAll(q, now))
    decreases |q.expired|
  {
    if q.expired != [] {
      SettleInTime(q, now);
      SettleKeeps(q, now);
      SettleAllInTime(Settle(q, now), now);
    }
  }

  /**
   After a batch the timerfd covers the earliest timer, whatever the state it was in before and
   whatever the callbacks did, non-positive expiries included.
   */
  lemma HandleReadInTime(q: Queue, now: int, callbacks: seq<seq<Action>>, clock: int)
    requires Coherent(q) && Idle(q) && 0 < now
    ensures InTime(HandleRead(q, now, callbacks, clock))
  {
    hide Alive, Placed, Freed, Ran, Awaited;
    var q0 := BeginBatch(q, now);
    BeginInTime(q, now);
    RunAllInTime(q0, callbacks);
    var q1 := RunAll(q0, callbacks).(callingExpired := false);
    SettleAllInTime(q1, now);
    EndInTime(SettleAll(q1, now), clock);
  }

  lemma BeginInTime(q: Queue, now: int)
    requires Coherent(q) && Idle(q) && 0 < now
    ensures InTime(BeginBatch(q, now))
  {
    hide Alive, Placed, Freed, Ran, Awaited;
    ListIsSorted(q);
    TakeFirstKeeps(q, FirstAfter(q.timers, now));
  }

  lemma EndInTime(q: Queue, clock: int)
    requires InTime(q) && q.batching
    ensures InTime(EndBatch(q, clock))
  {
  }
}
