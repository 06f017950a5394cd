/**
 What a batch does to each timer: callbacks of the batch may cancel any timer, in it or not, and add
 others while it runs.
 */
module TimerOutcomes {
  import opened OrderedSet
  import opened TimerQueues

  /** The calls that the first `n` callbacks make, in order. */
  function Executed(callbacks: seq<seq<Action>>, n: nat): seq<Action> {
    if n == 0 || callbacks == [] then [] else callbacks[0] + Executed(callbacks[1..], n - 1)
  }

  function Sequences(heap: Heap, es: seq<Entry>): seq<nat>
    requires forall e :: e in es ==> e.addr in heap
  {
    seq(|es|, i requires 0 <= i < |es| => heap[es[i].addr].sequence)
  }

  predicate Holds(q: Queue, a: nat, t: Timer, p: Place) {
    At(q.heap, q.place, a, p) && q.heap[a] == t
  }

  /** History only grows: callbacks that ran stay run, and what was barred or deleted stays so. */
  ghost predicate Grows(ran: seq<nat>, barred: map<nat, nat>, place: Places,
                        ran': seq<nat>, barred': map<nat, nat>, place': Places)
  {
    && ran <= ran'
    && (forall s :: s in barred ==> s in barred' && barred'[s] == barred[s])
    && (forall s :: s in place && place[s].Deleted? ==> s in place' && place'[s].Deleted?)
  }

  ghost predicate Later(q: Queue, r: Queue) {
    Grows(q.ran, q.barred, q.place, r.ran, r.barred, r.place)
  }

  lemma CreateHolds(q: Queue, when: int, interval: real, hint: nat, a: nat, t: Timer, p: Place)
    requires Alive(q.heap, q.place, q.sumCreated) && Holds(q, a, t, p)
    ensures Holds(Create(q, when, interval, hint), a, t, p)
  {
  }

  lemma AddHolds(q: Queue, b: nat, clock: int, a: nat, t: Timer, p: Place)
    requires Alive(q.heap, q.place, q.sumCreated) && InPlace(q) && b in q.pendingAdds
    requires Holds(q, a, t, p) && p != Created(a)
    ensures Holds(AddInLoop(q, b, clock), a, t, p)
  {
  }

  lemma CancelHolds(q: Queue, id: TimerId, a: nat, t: Timer, p: Place)
    requires Alive(q.heap, q.place, q.sumCreated) && InPlace(q) && Holds(q, a, t, p)
    ensures p == InBatch(a) || id != TimerId(a, t.sequence) ==> Holds(CancelInLoop(q, id), a, t, p)
    ensures id == TimerId(a, t.sequence) ==> (id in q.active <==> p == Queued(a))
  {
  }

  lemma CreateLater(q: Queue, when: int, interval: real, hint: nat)
    requires Alive(q.heap, q.place, q.sumCreated)
    ensures Later(q, Create(q, when, interval, hint))
  {
  }

  lemma AddLater(q: Queue, a: nat, clock: int)
    requires InPlace(q) && a in q.pendingAdds
    ensures Later(q, AddInLoop(q, a, clock))
  {
  }

  lemma CancelLater(q: Queue, id: TimerId)
    requires InPlace(q) && Freed(q.place, q.deletions, q.barred, q.ran)
    ensures Later(q, CancelInLoop(q, id))
  {
  }

  lemma ActLater(q: Queue, x: Action)
    requires Coherent(q)
    ensures Later(q, Act(q, x))
  {
    hide Alive, Placed, Freed, Ran, Awaited, Grows;
    match x
    case AddElsewhere(when, interval, hint) => CreateLater(q, when, interval, hint);
    case Add(when, interval, hint, clock) =>
      CreateKeeps(q, when, interval, hint);
      CreateLater(q, when, interval, hint);
      AddLater(Create(q, when, interval, hint), Allocate(hint, q.heap.Keys), clock);
      LaterTransitive(q, Create(q, when, interval, hint), Act(q, x));
    case Cancel(id) => CancelLater(q, id);
  }

  /** A timer of the running batch stays; to cancel it is to note its identity. */
  lemma ActOnBatch(q: Queue, x: Action, a: nat, t: Timer)
    requires Coherent(q) && Holds(q, a, t, InBatch(a)) && q.callingExpired
    ensures Holds(Act(q, x), a, t, InBatch(a))
    ensures
      var id := TimerId(a, t.sequence);
      id in Act(q, x).canceling <==> id in q.canceling || x == Cancel(id)
  {
    hide Alive, Placed, Freed, Ran, Awaited, Holds;
    match x
    case AddElsewhere(when, interval, hint) =>
      CreateHolds(q, when, interval, hint, a, t, InBatch(a));
    case Add(when, interval, hint, clock) =>
      CreateKeeps(q, when, interval, hint);
      CreateHolds(q, when, interval, hint, a, t, InBatch(a));
      AddHolds(Create(q, when, interval, hint), Allocate(hint, q.heap.Keys), clock, a, t, InBatch(a));
    case Cancel(id) =>
      CancelHolds(q, id, a, t, InBatch(a));
  }

  /** A queued timer stays unless it is cancelled, and then it is deleted and barred at once. */
  lemma ActOnQueued(q: Queue, x: Action, a: nat, t: Timer)
    requires Coherent(q) && Holds(q, a, t, Queued(a))
    ensures x != Cancel(TimerId(a, t.sequence)) ==> Holds(Act(q, x), a, t, Queued(a))
    ensures x == Cancel(TimerId(a, t.sequence)) ==> t.sequence in Act(q, x).barred
  {
    hide Alive, Placed, Freed, Ran, Awaited, Holds;
    match x
    case AddElsewhere(when, interval, hint) =>
      CreateHolds(q, when, interval, hint, a, t, Queued(a));
    case Add(when, interval, hint, clock) =>
      CreateKeeps(q, when, interval, hint);
      CreateHolds(q, when, interval, hint, a, t, Queued(a));
      AddHolds(Create(q, when, interval, hint), Allocate(hint, q.heap.Keys), clock, a, t, Queued(a));
    case Cancel(id) =>
      CancelHolds(q, id, a, t, Queued(a));
  }

  lemma {:induction false} PerformLater(q: Queue, xs: seq<Action>)
    requires Coherent(q)
    ensures Later(q, Perform(q, xs))
    decreases |xs|
  {
    hide Coherent;
    if xs != [] {
      ActLater(q, xs[0]);
      PerformLater(Act(q, xs[0]), xs[1..]);
    }
  }

  lemma {:induction false} PerformOnBatch(q: Queue, xs: seq<Action>, a: nat, t: Timer)
    requires Coherent(q) && Holds(q, a, t, InBatch(a)) && q.callingExpired
    ensures Holds(Perform(q, xs), a, t, InBatch(a))
    ensures
      var id := TimerId(a, t.sequence);
      id in Perform(q, xs).canceling <==> id in q.canceling || Cancel(id) in xs
    decreases |xs|
  {
    hide Coherent, Holds;
    if xs != [] {
      ActOnBatch(q, xs[0], a, t);
      PerformOnBatch(Act(q, xs[0]), xs[1..], a, t);
    }
  }

  lemma {:induction false} PerformOnQueued(q: Queue, xs: seq<Action>, a: nat, t: Timer)
    requires Coherent(q) && Holds(q, a, t, Queued(a))
    ensures Cancel(TimerId(a, t.sequence)) !in xs ==> Holds(Perform(q, xs), a, t, Queued(a))
    ensures Cancel(TimerId(a, t.sequence)) in xs ==> t.sequence in Perform(q, xs).barred
    decreases |xs|
  {
    hide Coherent, Holds;
    if xs != [] {
      ActOnQueued(q, xs[0], a, t);
      if xs[0] == Cancel(TimerId(a, t.sequence)) {
        PerformLater(Act(q, xs[0]), xs[1..]);
      } else {
        PerformOnQueued(Act(q, xs[0]), xs[1..], a, t);
      }
    }
  }

  lemma LaterTransitive(q: Queue, r: Queue, t: Queue)
    requires Later(q, r) && Later(r, t)
    ensures Later(q, t)
  {
  }

  lemma RunHolds(q: Queue, a: nat, t: Timer, p: Place)
    requires Coherent(q) && q.waiting != [] && Holds(q, a, t, p)
    ensures q.waiting[0].addr in q.heap && Coherent(RunNext(q)) && Holds(RunNext(q), a, t, p)
    ensures Later(q, RunNext(q))
  {
    RunKeeps(q);
  }

  lemma {:induction false} RunAllLater(q: Queue, callbacks: seq<seq<Action>>)
    requires Coherent(q)
    ensures Later(q, RunAll(q, callbacks))
    decreases |q.waiting|
  {
    hide Coherent;
    if q.waiting != [] {
      RunKeeps(q);
      var q1 := Perform(RunNext(q), First(callbacks));
      PerformLater(RunNext(q), First(callbacks));
      RunAllLater(q1, Rest(callbacks));
      LaterTransitive(q, q1, RunAll(q1, Rest(callbacks)));
    }
  }

  lemma {:induction false} RunAllOnBatch(q: Queue, callbacks: seq<seq<Action>>, a: nat, t: Timer)
    requires Coherent(q) && Holds(q, a, t, InBatch(a)) && q.callingExpired
    ensures Holds(RunAll(q, callbacks), a, t, InBatch(a))
    ensures
      var id := TimerId(a, t.sequence);
      id in RunAll(q, callbacks).canceling <==>
      id in q.canceling || Cancel(id) in Executed(callbacks, |q.waiting|)
    decreases |q.waiting|
  {
    hide Coherent, Holds;
    if q.waiting != [] {
      RunHolds(q, a, t, InBatch(a));
      PerformOnBatch(RunNext(q), First(callbacks), a, t);
      RunAllOnBatch(Perform(RunNext(q), First(callbacks)), Rest(callbacks), a, t);
    }
  }

  lemma {:induction false} RunAllOnQueued(q: Queue, callbacks: seq<seq<Action>>, a: nat, t: Timer)
    requires Coherent(q) && Holds(q, a, t, Queued(a))
    ensures
      var cancelled := Cancel(TimerId(a, t.sequence)) in Executed(callbacks, |q.waiting|);
      && (!cancelled ==> Holds(RunAll(q, callbacks), a, t, Queued(a)))
      && (cancelled ==> t.sequence in RunAll(q, callbacks).barred)
    decreases |q.waiting|
  {
    hide Coherent, Holds;
    if q.waiting != [] {
      RunHolds(q, a, t, Queued(a));
      var q1 := Perform(RunNext(q), First(callbacks));
      PerformOnQueued(RunNext(q), First(callbacks), a, t);
      if Cancel(TimerId(a, t.sequence)) in First(callbacks) {
        RunAllLater(q1, Rest(callbacks));
      } else {
        RunAllOnQueued(q1, Rest(callbacks), a, t);
      }
    }
  }

  lemma {:induction false} PerformSplits(q: Queue, xs: seq<Action>, k: nat)
    requires Coherent(q) && k <= |xs|
    ensures Perform(q, xs) == Perform(Perform(q, xs[..k]), xs[k..])
    decreases k
  {
    hide Coherent;
    if k == 0 {
      assert xs[0..] == xs;
    } else {
      PerformSplits(Act(q, xs[0]), xs[1..], k - 1);
      assert xs[..k][1..] == xs[1..][..k - 1] && xs[1..][k - 1..] == xs[k..];
    }
  }

  lemma ActiveHolds(q: Queue, id: TimerId)
    requires Coherent(q) && id in q.active
    ensures id.addr in q.heap && q.heap[id.addr].sequence == id.sequence
    ensures Holds(q, id.addr, q.heap[id.addr], Queued(id.addr))
  {
  }

  lemma CancelBars(q: Queue, id: TimerId)
    requires Coherent(q) && id in q.active
    ensures
      var r := Act(q, Cancel(id));
      id.sequence in r.barred && r.barred[id.sequence] == |q.ran|
  {
  }

  /** A timer that is queued when a callback of the batch cancels it is barred from that moment on. */
  lemma {:induction false} MidwayCancels(q: Queue, callbacks: seq<seq<Action>>, n: nat, k: nat, id: TimerId)
    requires Coherent(q) && n < |q.waiting| && n < |callbacks| && k < |callbacks[n]|
    requires callbacks[n][k] == Cancel(id) && id in Midway(q, callbacks, n, k).active
    ensures
      var m, r := Midway(q, callbacks, n, k), RunAll(q, callbacks);
      m.ran <= r.ran && id.sequence in r.barred && r.barred[id.sequence] == |m.ran|
    decreases n
  {
    hide Coherent;
    RunKeeps(q);
    var after := Perform(RunNext(q), callbacks[0]);
    if n == 0 {
      var xs, m := callbacks[0], Midway(q, callbacks, n, k);
      PerformSplits(RunNext(q), xs, k);
      assert xs[k..][1..] == xs[k + 1..];
      CancelBars(m, id);
      PerformLater(Act(m, Cancel(id)), xs[k + 1..]);
      RunAllLater(after, Rest(callbacks));
    } else {
      MidwayCancels(after, callbacks[1..], n - 1, k, id);
    }
  }

  /** Every callback still to run is that of a timer in the batch, unchanged since `heap`. */
  ghost predicate Held(q: Queue, heap: Heap) {
    forall e :: e in q.waiting ==> e.addr in heap && Holds(q, e.addr, heap[e.addr], InBatch(e.addr))
  }

  lemma HeldOn(q: Queue, xs: seq<Action>, heap: Heap)
    requires Coherent(q) && q.callingExpired && q.waiting != [] && Held(q, heap)
    ensures q.waiting[0].addr in q.heap && Coherent(RunNext(q)) && Held(Perform(RunNext(q), xs), heap)
    ensures q.waiting[0].addr in heap && heap[q.waiting[0].addr] == q.heap[q.waiting[0].addr]
  {
    hide Alive, Placed, Freed, Ran, Awaited;
    assert q.waiting[0] in q.waiting;
    RunKeeps(q);
    forall e | e in q.waiting[1..]
      ensures e.addr in heap && Holds(Perform(RunNext(q), xs), e.addr, heap[e.addr], InBatch(e.addr))
    {
      RunHolds(q, e.addr, heap[e.addr], InBatch(e.addr));
      PerformOnBatch(RunNext(q), xs, e.addr, heap[e.addr]);
    }
  }

  /** The callbacks of the batch run once each, in the order in which they expired. */
  lemma {:induction false} RunAllRan(q: Queue, callbacks: seq<seq<Action>>, heap: Heap)
    requires Coherent(q) && q.callingExpired && Held(q, heap)
    requires forall e :: e in q.waiting ==> e.addr in heap
    ensures RunAll(q, callbacks).ran == q.ran + Sequences(heap, q.waiting)
    decreases |q.waiting|
  {
    hide Coherent, Held;
    if q.waiting != [] {
      HeldOn(q, First(callbacks), heap);
      var q1 := Perform(RunNext(q), First(callbacks));
      RunAllRan(q1, Rest(callbacks), heap);
      assert Sequences(heap, q.waiting) == [heap[q.waiting[0].addr].sequence] + Sequences(heap, q1.waiting);
    }
  }

  lemma SettleOther(q: Queue, now: int, a: nat, t: Timer, p: Place)
    requires Coherent(q) && q.expired != [] && q.waiting == []
    requires Holds(q, a, t, p) && a != q.expired[0].addr
    ensures Holds(Settle(q, now), a, t, p)
  {
    assert q.expired[0] in q.expired;
  }

  lemma SettleLater(q: Queue, now: int)
    requires Coherent(q) && q.expired != [] && q.waiting == []
    ensures Later(q, Settle(q, now)) && Settle(q, now).canceling == q.canceling
  {
    assert q.expired[0] in q.expired;
  }

  lemma {:induction false} SettleAllLater(q: Queue, now: int)
    requires Coherent(q) && q.waiting == []
    ensures Later(q, SettleAll(q, now))
    decreases |q.expired|
  {
    hide Alive, Placed, Freed, Ran, Awaited, Later;
    if q.expired != [] {
      SettleLater(q, now);
      SettleKeeps(q, now);
      SettleAllLater(Settle(q, now), now);
      LaterTransitive(q, Settle(q, now), SettleAll(q, now));
    } else {
      LaterReflexive(q);
    }
  }

  lemma LaterReflexive(q: Queue)
    ensures Later(q, q)
  {
  }

  lemma {:induction false} SettleAllOnQueued(q: Queue, now: int, a: nat, t: Timer)
    requires Coherent(q) && q.waiting == [] && Holds(q, a, t, Queued(a))
    ensures Holds(SettleAll(q, now), a, t, Queued(a))
    decreases |q.expired|
  {
    if q.expired != [] {
      NotQueued(q, q.expired[0]);
      hide Coherent;
      SettleOther(q, now, a, t, Queued(a));
      SettleKeeps(q, now);
      SettleAllOnQueued(Settle(q, now), now, a, t);
    }
  }

  lemma NotQueued(q: Queue, e: Entry)
    requires Coherent(q) && e in q.expired
    ensures At(q.heap, q.place, e.addr, InBatch(e.addr)) && q.heap[e.addr].expiration == e.when
  {
  }

  /** Where the timer of the batch ends: back in the queue one interval from now, or deleted. */
  ghost predicate Settled(q: Queue, now: int, a: nat, t: Timer, cancelled: bool) {
    if t.Repeat() && !cancelled then Holds(q, a, t.Restart(now), Queued(a))
    else t.sequence in q.place && q.place[t.sequence].Deleted? && (cancelled ==> t.sequence in q.barred)
  }

  lemma SettleHead(q: Queue, now: int)
    requires Coherent(q) && q.expired != [] && q.waiting == []
    ensures
      var a := q.expired[0].addr;
      && a in q.heap
      && Settled(Settle(q, now), now, a, q.heap[a], TimerId(a, q.heap[a].sequence) in q.canceling)
  {
  }

  lemma {:induction false} SettleAllOnBatch(q: Queue, now: int, a: nat, t: Timer)
    requires Coherent(q) && q.waiting == [] && Holds(q, a, t, InBatch(a))
    requires Entry(t.expiration, a) in q.expired
    ensures Settled(SettleAll(q, now), now, a, t, TimerId(a, t.sequence) in q.canceling)
    decreases |q.expired|
  {
    hide Alive, Placed, Freed, Ran, Awaited;
    var q1 := Settle(q, now);
    SettleKeeps(q, now);
    SettleLater(q, now);
    if q.expired[0].addr == a {
      SettleHead(q, now);
      if t.Repeat() && TimerId(a, t.sequence) !in q.canceling {
        SettleAllOnQueued(q1, now, a, t.Restart(now));
      } else {
        SettleAllLater(q1, now);
      }
    } else {
      SettleOther(q, now, a, t, InBatch(a));
      SettleAllOnBatch(q1, now, a, t);
    }
  }

  lemma QueuedIsListed(q: Queue, a: nat, t: Timer)
    requires Coherent(q) && Holds(q, a, t, Queued(a))
    ensures Entry(t.expiration, a) in q.timers && Sorted(q.timers)
  {
  }

  lemma ListedIsQueued(q: Queue, e: Entry)
    requires Coherent(q) && e in q.timers
    ensures At(q.heap, q.place, e.addr, Queued(e.addr)) && q.heap[e.addr].expiration == e.when
  {
  }

  /** The timers that are due are in the batch, the others still queued. */
  lemma BeginHolds(q: Queue, now: int, a: nat, t: Timer)
    requires Coherent(q) && Idle(q) && Holds(q, a, t, Queued(a))
    ensures
      var r := BeginBatch(q, now);
      && Holds(r, a, t, if t.expiration <= now then InBatch(a) else Queued(a))
      && (t.expiration <= now ==> Entry(t.expiration, a) in r.expired)
  {
    var r := BeginBatch(q, now);
    QueuedIsListed(q, a, t);
    DueIsExact(q.timers, now);
    hide Alive, Placed, Freed, Ran, Awaited;
    var e := Entry(t.expiration, a);
    if t.expiration <= now {
      NotQueued(r, e);
    } else {
      ListedIsQueued(r, e);
    }
  }

  lemma DueOutcome(q: Queue, now: int, callbacks: seq<seq<Action>>, a: nat, t: Timer)
    requires Coherent(q) && Idle(q) && Holds(q, a, t, Queued(a)) && t.expiration <= now
    ensures
      var q1 := RunAll(BeginBatch(q, now), callbacks).(callingExpired := false);
      var cancelled := Cancel(TimerId(a, t.sequence)) in Executed(callbacks, |Due(q.timers, now)|);
      Settled(SettleAll(q1, now), now, a, t, cancelled)
  {
    hide Alive, Placed, Freed, Ran, Awaited;
    BeginHolds(q, now, a, t);
    var q0 := BeginBatch(q, now);
    RunAllOnBatch(q0, callbacks, a, t);
    SettleAllOnBatch(RunAll(q0, callbacks).(callingExpired := false), now, a, t);
  }

  lemma NotDueOutcome(q: Queue, now: int, callbacks: seq<seq<Action>>, a: nat, t: Timer)
    requires Coherent(q) && Idle(q) && Holds(q, a, t, Queued(a)) && now < t.expiration
    ensures
      var q1 := RunAll(BeginBatch(q, now), callbacks).(callingExpired := false);
      if Cancel(TimerId(a, t.sequence)) in Executed(callbacks, |Due(q.timers, now)|)
      then t.sequence in SettleAll(q1, now).barred
      else Holds(SettleAll(q1, now), a, t, Queued(a))
  {
    QueuedIsListed(q, a, t);
    hide Alive, Placed, Freed, Ran, Awaited, Due;
    BeginHolds(q, now, a, t);
    var q0 := BeginBatch(q, now);
    var q1 := RunAll(q0, callbacks).(callingExpired := false);
    RunAllOnQueued(q0, callbacks, a, t);
    if Cancel(TimerId(a, t.sequence)) in Executed(callbacks, |Due(q.timers, now)|) {
      SettleAllLater(q1, now);
    } else {
      SettleAllOnQueued(q1, now, a, t);
    }
  }

  /** `when` is `seconds` after `now`, in whole microseconds. */
  predicate SecondsAfter(when: int, now: int, seconds: real) {
    (when - now) as real <= seconds * 1000000.0 < (when - now) as real + 1.0
  }

  lemma RestartIsOnTime(t: Timer, now: int)
    requires t.interval > 0.0
    ensures
      var t' := t.Restart(now);
      t' == t.(expiration := t'.expiration) && SecondsAfter(t'.expiration, now, t.interval)
  {
  }

  /**
   What a batch does to a queued timer.  Due: it goes back one interval from now if it repeats and
   no callback of the batch cancelled it, and otherwise is deleted.  Not due: it stays unless
   cancelled.  Cancelled: it is deleted, and barred from running again.
   */
  lemma BatchOutcome(q: Queue, now: int, callbacks: seq<seq<Action>>, clock: int, a: nat, t: Timer)
    requires Coherent(q) && Idle(q) && Holds(q, a, t, Queued(a))
    ensures
      var r := HandleRead(q, now, callbacks, clock);
      var cancelled := Cancel(TimerId(a, t.sequence)) in Executed(callbacks, |Due(q.timers, now)|);
      && (now < t.expiration && !cancelled ==> Holds(r, a, t, Queued(a)))
      && (t.expiration <= now && !cancelled && t.interval > 0.0 ==>
            exists when :: Holds(r, a, t.(expiration := when), Queued(a)) && SecondsAfter(when, now, t.interval))
      && (t.expiration <= now && !cancelled && t.interval <= 0.0 ==>
            t.sequence in r.place && r.place[t.sequence].Deleted?)
      && (cancelled ==> t.sequence in r.barred)
  {
    hide Alive, Placed, Freed, Ran, Awaited, Executed, BeginBatch, RunAll, SettleAll;
    if t.expiration <= now {
      DueOutcome(q, now, callbacks, a, t);
      if t.interval > 0.0 { RestartIsOnTime(t, now); }
    } else {
      NotDueOutcome(q, now, callbacks, a, t);
    }
  }

  lemma BeginHeld(q: Queue, now: int)
    requires Coherent(q) && Idle(q)
    ensures Held(BeginBatch(q, now), q.heap)
  {
  }

  /** A batch runs exactly the timers due when it began, earliest first, each once. */
  lemma BatchRuns(q: Queue, now: int, callbacks: seq<seq<Action>>, clock: int)
    requires Coherent(q) && Idle(q)
    ensures forall e :: e in Due(q.timers, now) ==> e.addr in q.heap
    ensures HandleRead(q, now, callbacks, clock).ran == q.ran + Sequences(q.heap, Due(q.timers, now))
  {
    BeginHeld(q, now);
    hide Alive, Placed, Freed, Ran, Awaited, Holds;
    RunAllRan(BeginBatch(q, now), callbacks, q.heap);
  }
}
