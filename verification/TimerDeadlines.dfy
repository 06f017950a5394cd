/**
 What the timerfd is set for, exactly: after each call and each batch, and over every run.  No deadline
 is earlier than the expiry of a timer that was queued when it was set, or the shortest delay.
 */
module TimerDeadlines {
  import opened OrderedSet
  import opened TimerQueues
  import opened TimerArming
  import opened TimerOutcomes
  import opened TimerRuns

  /** A call of a callback sets the timerfd exactly when it adds a timer that expires before all others. */
  lemma ActArms(q: Queue, x: Action)
    requires Coherent(q)
    ensures Act(q, x).alarm ==
      if x.Add? && (forall e :: e in q.timers ==> x.when < e.when)
      then Armed(Max(x.when, x.clock + MIN_DELAY), x.clock) else q.alarm
  {
    hide Alive, Placed, Freed, Ran, Awaited;
    match x
    case AddElsewhere(_, _, _) =>
    case Add(when, interval, hint, clock) =>
      CreateKeeps(q, when, interval, hint);
      AddArms(Create(q, when, interval, hint), Allocate(hint, q.heap.Keys), clock);
    case Cancel(id) =>
  }

  /** So does the arrival of an add between batches. */
  lemma AddArms(q: Queue, a: nat, clock: int)
    requires Coherent(q) && a in q.pendingAdds
    ensures a in q.heap
    ensures
      var when := q.heap[a].expiration;
      AddInLoop(q, a, clock).alarm ==
        if forall e :: e in q.timers ==> when < e.when then Armed(Max(when, clock + MIN_DELAY), clock) else q.alarm
  {
    AddLoose(q, a);
    ListIsSorted(q);
    hide Alive, Placed, Freed, Ran, Awaited;
    var when := q.heap[a].expiration;
    ArmedFor(when, clock);
    if q.timers != [] && when < q.timers[0].when {
      forall e | e in q.timers ensures when < e.when { FirstIsLeast(q.timers, e); }
    }
  }

  // ---------- a whole batch ----------

  /** The timerfd is set to `a` for a timer that is queued. */
  ghost predicate SetFor(q: Queue, a: Alarm) {
    && q.alarm == a && a.Armed?
    && exists e :: e in q.timers && a.deadline == Max(e.when, a.at + MIN_DELAY)
  }

  lemma ActSets(q: Queue, x: Action)
    requires Coherent(q)
    ensures Act(q, x).alarm == q.alarm || (x.Add? && SetFor(Act(q, x), Act(q, x).alarm))
    ensures Act(q, x).alarm == q.alarm || Act(q, x).alarm == Armed(Max(x.when, x.clock + MIN_DELAY), x.clock)
  {
    hide Alive, Placed, Freed, Ran, Awaited;
    ActArms(q, x);
    if x.Add? { AddedIsListed(q, x.when, x.interval, x.hint, x.clock); }
  }

  lemma AddedIsListed(q: Queue, when: int, interval: real, hint: nat, clock: int)
    requires Coherent(q)
    ensures
      var a := Allocate(hint, q.heap.Keys);
      var r := Act(q, Add(when, interval, hint, clock));
      && a !in q.heap && Holds(r, a, Timer(q.sumCreated, when, interval), Queued(a))
      && Entry(when, a) in r.timers
  {
    CreateKeeps(q, when, interval, hint);
    var a := Allocate(hint, q.heap.Keys);
    AddKeeps(Create(q, when, interval, hint), a, clock);
    QueuedIsListed(Act(q, Add(when, interval, hint, clock)), a, Timer(q.sumCreated, when, interval));
  }

  /** One of the calls is an add that sets the timerfd to `a` for a timer then queued. */
  ghost predicate SetByCall(q: Queue, xs: seq<Action>, a: Alarm)
    requires Coherent(q)
  {
    exists k: nat :: k < |xs| && xs[k].Add? && SetFor(Perform(q, xs[..k + 1]), a)
      && a == Armed(Max(xs[k].when, xs[k].clock + MIN_DELAY), xs[k].clock)
  }

  /** The calls made by one callback leave the timerfd alone, or one of the adds set it last. */
  lemma {:induction false} PerformSets(q: Queue, xs: seq<Action>)
    requires Coherent(q)
    ensures Perform(q, xs).alarm == q.alarm || SetByCall(q, xs, Perform(q, xs).alarm)
    decreases |xs|
  {
    hide Coherent, SetFor, Act;
    if xs != [] {
      var q1, rest := Act(q, xs[0]), xs[1..];
      ActSets(q, xs[0]);
      PerformSets(q1, rest);
      if Perform(q1, rest).alarm == q1.alarm {
        assert xs[..1] == [xs[0]] && xs[..1][1..] == [];
        assert Perform(q, xs[..0 + 1]) == q1;
      } else {
        var a := Perform(q1, rest).alarm;
        var k: nat :| k < |rest| && rest[k].Add? && SetFor(Perform(q1, rest[..k + 1]), a)
          && a == Armed(Max(rest[k].when, rest[k].clock + MIN_DELAY), rest[k].clock);
        assert xs[..k + 2][1..] == rest[..k + 1];
        assert Perform(q, xs[..k + 1 + 1]) == Perform(q1, rest[..k + 1]) && xs[k + 1] == rest[k];
      }
    }
  }

  /** Callback n of the batch runs, and its call k is an add that sets the timerfd to `a`. */
  predicate AddSets(callbacks: seq<seq<Action>>, n: nat, k: nat, a: Alarm) {
    && n < |callbacks| && k < |callbacks[n]| && callbacks[n][k].Add?
    && a == Armed(Max(callbacks[n][k].when, callbacks[n][k].clock + MIN_DELAY), callbacks[n][k].clock)
  }

  /** So does a call of one of the callbacks in the rest of the batch. */
  ghost predicate SetInBatch(q: Queue, callbacks: seq<seq<Action>>, a: Alarm)
    requires Coherent(q)
  {
    exists n: nat, k: nat :: n < |q.waiting| && AddSets(callbacks, n, k, a) && SetFor(Midway(q, callbacks, n, k + 1), a)
  }

  lemma {:induction false} RunAllSets(q: Queue, callbacks: seq<seq<Action>>)
    requires Coherent(q)
    ensures RunAll(q, callbacks).alarm == q.alarm || SetInBatch(q, callbacks, RunAll(q, callbacks).alarm)
    decreases |q.waiting|
  {
    hide Coherent, SetFor, Act, Perform, AddSets, SetInBatch;
    if q.waiting != [] {
      RunKeeps(q);
      var calls := First(callbacks);
      var q1 := Perform(RunNext(q), calls);
      PerformSets(RunNext(q), calls);
      RunAllSets(q1, Rest(callbacks));
      if RunAll(q1, Rest(callbacks)).alarm == q1.alarm {
        if q1.alarm != q.alarm { SetInFirst(q, callbacks, q1.alarm); }
      } else {
        SetLater(q, callbacks, RunAll(q1, Rest(callbacks)).alarm);
      }
    }
  }

  lemma SetLater(q: Queue, callbacks: seq<seq<Action>>, a: Alarm)
    requires Coherent(q) && q.waiting != [] && q.waiting[0].addr in q.heap && Coherent(RunNext(q))
    requires SetInBatch(Perform(RunNext(q), First(callbacks)), Rest(callbacks), a)
    ensures SetInBatch(q, callbacks, a)
  {
    hide Coherent, SetFor;
    var q1 := Perform(RunNext(q), First(callbacks));
    var n: nat, k: nat :| n < |q1.waiting| && AddSets(Rest(callbacks), n, k, a)
      && SetFor(Midway(q1, Rest(callbacks), n, k + 1), a);
    assert AddSets(callbacks, n + 1, k, a);
    assert Midway(q, callbacks, n + 1, k + 1) == Midway(q1, Rest(callbacks), n, k + 1);
  }

  lemma SetInFirst(q: Queue, callbacks: seq<seq<Action>>, a: Alarm)
    requires Coherent(q) && q.waiting != [] && q.waiting[0].addr in q.heap && Coherent(RunNext(q))
    requires SetByCall(RunNext(q), First(callbacks), a)
    ensures SetInBatch(q, callbacks, a)
  {
    hide Coherent, SetFor, Act, Perform;
    var calls := First(callbacks);
    var k: nat :| k < |calls| && calls[k].Add? && SetFor(Perform(RunNext(q), calls[..k + 1]), a)
      && a == Armed(Max(calls[k].when, calls[k].clock + MIN_DELAY), calls[k].clock);
    assert k + 1 == |calls| ==> calls[..k + 1] == calls;
    assert AddSets(callbacks, 0, k, a) && SetFor(Midway(q, callbacks, 0, k + 1), a);
  }

  lemma {:induction false} SettleAllSame(q: Queue, now: int)
    requires Coherent(q) && q.waiting == []
    ensures SettleAll(q, now).alarm == q.alarm
    decreases |q.expired|
  {
    hide Alive, Placed, Freed, Ran, Awaited;
    if q.expired != [] {
      SettleKeeps(q, now);
      SettleAllSame(Settle(q, now), now);
    }
  }

  lemma {:induction false} TakeFirstSame(q: Queue, n: nat)
    requires n <= |q.timers| && forall e :: e in q.timers ==> e.addr in q.heap
    ensures TakeFirst(q, n).alarm == q.alarm
  {
    if n > 0 { TakeFirstSame(q, n - 1); }
  }

  lemma BeginClears(q: Queue, now: int)
    requires Coherent(q) && Idle(q)
    ensures BeginBatch(q, now).alarm == if q.alarm.Fired? then Disarmed else q.alarm
  {
    hide Alive, Placed, Freed, Ran, Awaited;
    ListIsSorted(q);
    TakeFirstSame(q, FirstAfter(q.timers, now));
  }

  /**
   What the timerfd is after a batch.  With a timer of valid expiry left, it is set for the earliest one,
   and to no earlier than that.  Otherwise it is what it was, stopped if it had fired, or what a callback's
   add has set it to.
   */
  lemma HandleReadArms(q: Queue, now: int, callbacks: seq<seq<Action>>, clock: int)
    requires Coherent(q) && Idle(q)
    ensures
      var r := HandleRead(q, now, callbacks, clock);
      if r.timers != [] && 0 < r.timers[0].when
      then r.alarm == Armed(Max(r.timers[0].when, clock + MIN_DELAY), clock)
      else
        || r.alarm == (if q.alarm.Fired? then Disarmed else q.alarm)
        || SetInBatch(BeginBatch(q, now), callbacks, r.alarm)
  {
    hide Alive, Placed, Freed, Ran, Awaited, SetInBatch;
    var q0 := BeginBatch(q, now);
    var q1 := RunAll(q0, callbacks).(callingExpired := false);
    BeginClears(q, now);
    RunAllSets(q0, callbacks);
    SettleAllSame(q1, now);
    EndArms(SettleAll(q1, now), clock);
  }

  lemma EndArms(q: Queue, clock: int)
    ensures EndBatch(q, clock).timers == q.timers
    ensures EndBatch(q, clock).alarm ==
      if q.timers != [] && 0 < q.timers[0].when
      then Armed(Max(q.timers[0].when, clock + MIN_DELAY), clock) else q.alarm
  {
    if q.timers != [] { ArmedFor(q.timers[0].when, clock); }
  }

  // ---------- over every run ----------

  /** In the middle of the batch, the timerfd was set to `a` for a timer that was queued. */
  ghost predicate SetInside(q: Queue, ev: Event, a: Alarm)
    requires Coherent(q) && Idle(q)
  {
    ev.Reads? && exists n: nat, k: nat :: SetFor(Midway(BeginBatch(q, ev.now), ev.callbacks, n, k), a)
  }

  /** At some moment of the run, the timerfd was set to `a` for a timer that was queued. */
  ghost predicate WasSetFor(q: Queue, evs: seq<Event>, a: Alarm)
    requires Coherent(q) && Idle(q)
    decreases |evs|
  {
    || SetFor(q, a)
    || (evs != [] && (SetInside(q, evs[0], a) || WasSetFor(Next(q, evs[0]), evs[1..], a)))
  }

  lemma NextSets(q: Queue, ev: Event)
    requires Coherent(q) && Idle(q) && Next(q, ev).alarm.Armed?
    ensures
      var a := Next(q, ev).alarm;
      a == q.alarm || SetFor(Next(q, ev), a) || SetInside(q, ev, a)
  {
    hide Alive, Placed, Freed, Ran, Awaited;
    match ev
    case AddStarts(_, _, _) =>
    case AddArrives(a, clock) => if a in q.pendingAdds { ArrivalSets(q, a, clock); }
    case CancelArrives(_) =>
    case Fires =>
    case Reads(now, callbacks, clock) =>
      hide SetFor;
      BatchSets(q, now, callbacks, clock);
  }

  lemma ArrivalSets(q: Queue, a: nat, clock: int)
    requires Coherent(q) && a in q.pendingAdds
    ensures
      var r := AddInLoop(q, a, clock);
      r.alarm == q.alarm || SetFor(r, r.alarm)
  {
    hide Alive, Placed, Freed, Ran, Awaited;
    AddArms(q, a, clock);
    AddLoose(q, a);
    ListIsSorted(q);
    assert Entry(q.heap[a].expiration, a) in AddInLoop(q, a, clock).timers;
  }

  lemma BatchSets(q: Queue, now: int, callbacks: seq<seq<Action>>, clock: int)
    requires Coherent(q) && Idle(q) && HandleRead(q, now, callbacks, clock).alarm.Armed?
    ensures
      var r := HandleRead(q, now, callbacks, clock);
      r.alarm == q.alarm || SetFor(r, r.alarm) || SetInside(q, Reads(now, callbacks, clock), r.alarm)
  {
    hide Coherent, HandleRead, BeginBatch, Midway, AddSets, SetInBatch;
    HandleReadArms(q, now, callbacks, clock);
    var r := HandleRead(q, now, callbacks, clock);
    if r.timers != [] && 0 < r.timers[0].when {
      assert r.timers[0] in r.timers;
      assert SetFor(r, r.alarm);
    } else if r.alarm != q.alarm {
      InsideBatch(q, Reads(now, callbacks, clock), r.alarm);
    }
  }

  lemma InsideBatch(q: Queue, ev: Event, a: Alarm)
    requires Coherent(q) && Idle(q) && ev.Reads? && SetInBatch(BeginBatch(q, ev.now), ev.callbacks, a)
    ensures SetInside(q, ev, a)
  {
    hide Coherent, BeginBatch, Midway, AddSets, SetFor;
    var q0 := BeginBatch(q, ev.now);
    var n: nat, k: nat :| n < |q0.waiting| && AddSets(ev.callbacks, n, k, a)
      && SetFor(Midway(q0, ev.callbacks, n, k + 1), a);
  }

  lemma {:induction false} RunSets(q: Queue, evs: seq<Event>)
    requires Coherent(q) && Idle(q) && Run(q, evs).alarm.Armed?
    ensures Run(q, evs).alarm == q.alarm || WasSetFor(q, evs, Run(q, evs).alarm)
    decreases |evs|
  {
    hide Coherent, SetFor, SetInside, Next;
    if evs != [] {
      RunSets(Next(q, evs[0]), evs[1..]);
      if Run(q, evs).alarm == Next(q, evs[0]).alarm {
        NextSets(q, evs[0]);
        assert SetFor(Next(q, evs[0]), Run(q, evs).alarm) ==> WasSetFor(Next(q, evs[0]), evs[1..], Run(q, evs).alarm);
      }
    }
  }

  /** Whenever the timerfd is counting down, its deadline is that of a timer that was queued when it was set. */
  lemma NeverTooEarly(evs: seq<Event>)
    ensures Coherent(Empty) && Idle(Empty)
    ensures Run(Empty, evs).alarm.Armed? ==> WasSetFor(Empty, evs, Run(Empty, evs).alarm)
  {
    EmptyIsFine();
    hide Coherent, Idle;
    if Run(Empty, evs).alarm.Armed? { RunSets(Empty, evs); }
  }
}
