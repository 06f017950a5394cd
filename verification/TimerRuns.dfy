/** The theorems about every run of the timer queue, from the empty queue on. */
module TimerRuns {
  import opened Basics
  import opened OrderedSet
  import opened TimerQueues
  import opened TimerArming
  import opened TimerOutcomes

  /** What the loop and the other threads do between batches, a firing, or a batch. */
  datatype Event =
    | AddStarts(when: int, interval: real, hint: nat)
    | AddArrives(addr: nat, clock: int)
    | CancelArrives(id: TimerId)
    | Fires
    | Reads(now: int, callbacks: seq<seq<Action>>, clock: int)

  function Next(q: Queue, ev: Event): (r: Queue)
    requires Coherent(q) && Idle(q)
    ensures Coherent(r) && Idle(r)
  {
    match ev
    case AddStarts(when, interval, hint) =>
      CreateKeeps(q, when, interval, hint);
      Create(q, when, interval, hint)
    case AddArrives(a, clock) =>
      if a in q.pendingAdds then
        AddKeeps(q, a, clock);
        AddInLoop(q, a, clock)
      else q
    case CancelArrives(id) =>
      CancelKeeps(q, id);
      CancelInLoop(q, id)
    case Fires => if q.alarm.Armed? then q.(alarm := Fired) else q
    case Reads(now, callbacks, clock) => HandleRead(q, now, callbacks, clock)
  }

  function Run(q: Queue, evs: seq<Event>): (r: Queue)
    requires Coherent(q) && Idle(q)
    ensures Coherent(r) && Idle(r)
    decreases |evs|
  {
    if evs == [] then q else Run(Next(q, evs[0]), evs[1..])
  }

  lemma NextLater(q: Queue, ev: Event)
    requires Coherent(q) && Idle(q)
    ensures Later(q, Next(q, ev))
  {
    hide Alive, Placed, Freed, Ran, Awaited, Grows, HandleRead;
    LaterReflexive(q);
    match ev
    case AddStarts(when, interval, hint) => CreateLater(q, when, interval, hint);
    case AddArrives(a, clock) => if a in q.pendingAdds { AddLater(q, a, clock); }
    case CancelArrives(id) => CancelLater(q, id);
    case Fires =>
    case Reads(now, callbacks, clock) => HandleReadLater(q, now, callbacks, clock);
  }

  lemma HandleReadLater(q: Queue, now: int, callbacks: seq<seq<Action>>, clock: int)
    requires Coherent(q) && Idle(q)
    ensures Later(q, HandleRead(q, now, callbacks, clock))
  {
    hide Alive, Placed, Freed, Ran, Awaited;
    var q0 := BeginBatch(q, now);
    hide Grows;
    var q1 := RunAll(q0, callbacks).(callingExpired := false);
    BeginLater(q, now);
    RunAllLater(q0, callbacks);
    SettleAllLater(q1, now);
    LaterTransitive(q, q0, q1);
    LaterTransitive(q, q1, SettleAll(q1, now));
  }

  lemma BeginLater(q: Queue, now: int)
    requires Coherent(q) && Idle(q)
    ensures Later(q, BeginBatch(q, now))
  {
    TakeFirstKeeps(q, FirstAfter(q.timers, now));
    hide Alive, Placed, Freed, Ran, Awaited;
    TakeFirstLater(q, FirstAfter(q.timers, now));
  }

  lemma TakeLater(q: Queue)
    requires Coherent(q) && q.timers != []
    ensures q.timers[0].addr in q.heap && Later(q, Take(q))
  {
  }

  lemma {:induction false} TakeFirstLater(q: Queue, n: nat)
    requires Coherent(q) && Idle(q) && n <= |q.timers|
    requires forall e :: e in q.timers ==> e.addr in q.heap
    ensures Later(q, TakeFirst(q, n))
  {
    hide Coherent;
    if n > 0 {
      TakeFirstLater(q, n - 1);
      TakeFirstKeeps(q, n - 1);
      TakeLater(TakeFirst(q, n - 1));
    }
  }

  lemma {:induction false} RunLater(q: Queue, evs: seq<Event>)
    requires Coherent(q) && Idle(q)
    ensures Later(q, Run(q, evs))
    decreases |evs|
  {
    hide Coherent;
    if evs != [] {
      NextLater(q, evs[0]);
      RunLater(Next(q, evs[0]), evs[1..]);
      LaterTransitive(q, Next(q, evs[0]), Run(q, evs));
    }
  }

  // ---------- theorems about every run from the empty queue ----------

  /** Both indexes list the same timers, each once, under the expiry the timer has now. */
  lemma IndexesAgree(q: Queue)
    requires Coherent(q)
    ensures |q.timers| == |q.active| && Sorted(q.timers)
    ensures forall e :: e in q.timers ==> e.addr in q.heap
    ensures forall id :: id in q.active ==> id.addr in q.heap
    ensures forall a :: a in q.heap ==>
      (Entry(q.heap[a].expiration, a) in q.timers <==> TimerId(a, q.heap[a].sequence) in q.active)
    ensures forall e :: e in q.timers ==> q.heap[e.addr].expiration == e.when
    ensures forall id :: id in q.active ==> q.heap[id.addr].sequence == id.sequence
  {
  }

  /** Every timer ever created waits to be added, is queued, is in the batch, or was deleted: one of these. */
  ghost predicate InOnePlace(q: Queue, s: nat) {
    var waits := exists a :: a in q.pendingAdds && a in q.heap && q.heap[a].sequence == s;
    var queued := exists id :: id in q.active && id.sequence == s;
    var batched := exists e :: e in q.expired && e.addr in q.heap && q.heap[e.addr].sequence == s;
    var deleted := s in q.deletions;
    && (waits || queued || batched || deleted)
    && !(waits && (queued || batched || deleted)) && !(queued && (batched || deleted)) && !(batched && deleted)
  }

  lemma OnePlace(q: Queue, s: nat)
    requires Coherent(q) && s < q.sumCreated
    ensures InOnePlace(q, s)
  {
    match q.place[s]
    case Created(a) => assert a in q.pendingAdds;
    case Queued(a) => assert TimerId(a, s) in q.active;
    case InBatch(a) => assert Entry(q.heap[a].expiration, a) in q.expired;
    case Deleted =>
  }

  /** No timer is deleted twice, and one that does not repeat runs once at most. */
  lemma AtMostOnce(q: Queue)
    requires Coherent(q)
    ensures Distinct(q.deletions)
    ensures forall i, j :: 0 <= i < j < |q.ran| && q.ran[i] == q.ran[j] ==> q.ran[i] in q.repeating
    ensures forall a :: a in q.heap && q.heap[a].sequence in q.repeating ==> q.heap[a].Repeat()
  {
  }

  /** Once barred, a timer never runs again, whatever happens next. */
  lemma BarredNeverRuns(q: Queue, s: nat, evs: seq<Event>)
    requires Coherent(q) && Idle(q) && s in q.barred
    ensures q.ran <= Run(q, evs).ran && s !in Run(q, evs).ran[|q.ran|..]
  {
    RunLater(q, evs);
    NotRunSince(Run(q, evs), s, |q.ran|);
  }

  lemma NotRunSince(q: Queue, s: nat, n: nat)
    requires Freed(q.place, q.deletions, q.barred, q.ran) && s in q.barred && q.barred[s] <= n <= |q.ran|
    ensures s !in q.ran[n..]
  {
  }

  /** A queued timer that is cancelled never runs again ... */
  lemma CancelledNeverRuns(q: Queue, id: TimerId, evs: seq<Event>)
    requires Coherent(q) && Idle(q) && id in q.active
    ensures
      var q1 := Next(q, CancelArrives(id));
      q1.ran == q.ran <= Run(q1, evs).ran && id.sequence !in Run(q1, evs).ran[|q.ran|..]
  {
    hide Alive, Placed, Freed, Ran, Awaited;
    BarredNeverRuns(Next(q, CancelArrives(id)), id.sequence, evs);
  }

  /** ... one queued before a batch that a callback of it cancels never runs after it, in the batch or not ... */
  lemma CancelledInBatchNeverRuns(
      q: Queue, now: int, callbacks: seq<seq<Action>>, clock: int, id: TimerId, evs: seq<Event>)
    requires Coherent(q) && Idle(q) && id in q.active
    requires Cancel(id) in Executed(callbacks, |Due(q.timers, now)|)
    ensures
      var q1 := HandleRead(q, now, callbacks, clock);
      q1.ran <= Run(q1, evs).ran && id.sequence !in Run(q1, evs).ran[|q1.ran|..]
  {
    ActiveHolds(q, id);
    hide Alive, Placed, Freed, Ran, Awaited, Holds;
    BatchOutcome(q, now, callbacks, clock, id.addr, q.heap[id.addr]);
    BarredNeverRuns(HandleRead(q, now, callbacks, clock), id.sequence, evs);
  }

  /**
   ... and one that is queued when a callback cancels it never runs again from that very moment on,
   even if another callback of the same batch had added it.
   */
  lemma CancelledMidwayNeverRuns(
      q: Queue, now: int, callbacks: seq<seq<Action>>, clock: int, n: nat, k: nat, id: TimerId, evs: seq<Event>)
    requires Coherent(q) && Idle(q)
    requires n < |Due(q.timers, now)| && n < |callbacks| && k < |callbacks[n]| && callbacks[n][k] == Cancel(id)
    requires id in Midway(BeginBatch(q, now), callbacks, n, k).active
    ensures
      var m, r := Midway(BeginBatch(q, now), callbacks, n, k), Run(HandleRead(q, now, callbacks, clock), evs);
      m.ran <= r.ran && id.sequence !in r.ran[|m.ran|..]
  {
    hide Alive, Placed, Freed, Ran, Awaited;
    var q0 := BeginBatch(q, now);
    var q1 := RunAll(q0, callbacks).(callingExpired := false);
    MidwayCancels(q0, callbacks, n, k, id);
    SettleAllLater(q1, now);
    RunLater(HandleRead(q, now, callbacks, clock), evs);
    NotRunSince(Run(HandleRead(q, now, callbacks, clock), evs), id.sequence, |Midway(q0, callbacks, n, k).ran|);
  }

  predicate AfterEpoch(ev: Event) {
    ev.Reads? ==> 0 < ev.now
  }

  lemma NextInTime(q: Queue, ev: Event)
    requires Coherent(q) && Idle(q) && InTime(q) && AfterEpoch(ev)
    ensures InTime(Next(q, ev))
  {
    hide Alive, Placed, Freed, Ran, Awaited;
    match ev
    case AddStarts(when, interval, hint) =>
    case AddArrives(a, clock) => if a in q.pendingAdds { AddInTime(q, a, clock); }
    case CancelArrives(id) => CancelInTime(q, id);
    case Fires =>
    case Reads(now, callbacks, clock) => HandleReadInTime(q, now, callbacks, clock);
  }

  /** Whenever the loop is between steps and a timer is queued, the timerfd will wake it in time. */
  lemma {:induction false} AlwaysInTime(q: Queue, evs: seq<Event>)
    requires Coherent(q) && Idle(q) && InTime(q)
    requires forall i :: 0 <= i < |evs| ==> AfterEpoch(evs[i])
    ensures InTime(Run(q, evs))
    decreases |evs|
  {
    hide Coherent;
    if evs != [] {
      NextInTime(q, evs[0]);
      AlwaysInTime(Next(q, evs[0]), evs[1..]);
    }
  }

  lemma EmptyIsFine()
    ensures Coherent(Empty) && Idle(Empty) && InTime(Empty)
  {
  }

  /** What holds of every timer `s` at every moment. */
  ghost predicate Sound(q: Queue, s: nat) {
    && |q.timers| == |q.active| && Sorted(q.timers)
    && (forall a :: a in q.heap ==>
          (Entry(q.heap[a].expiration, a) in q.timers <==> TimerId(a, q.heap[a].sequence) in q.active))
    && (s < q.sumCreated ==> InOnePlace(q, s))
    && Distinct(q.deletions)
    && (forall i, j :: 0 <= i < j < |q.ran| && q.ran[i] == q.ran[j] ==> q.ran[i] in q.repeating)
  }

  lemma CoherentIsSound(q: Queue, s: nat)
    requires Coherent(q)
    ensures Sound(q, s)
  {
    hide Coherent, Distinct, InOnePlace;
    IndexesAgree(q);
    AtMostOnce(q);
    if s < q.sumCreated { OnePlace(q, s); }
  }

  /**
   All of it, for every run from the empty queue and every timer created in it: after the run, and in
   the middle of the batch that may come next, before and after every call of every callback.
   */
  lemma EveryRun(evs: seq<Event>, s: nat, now: int, callbacks: seq<seq<Action>>, n: nat, k: nat)
    requires forall i :: 0 <= i < |evs| ==> AfterEpoch(evs[i])
    ensures Coherent(Empty) && Idle(Empty)
    ensures
      var q := Run(Empty, evs);
      Sound(q, s) && InTime(q) && Sound(Midway(BeginBatch(q, now), callbacks, n, k), s)
  {
    EmptyIsFine();
    hide Coherent, Idle, InTime, Run, Sound;
    var q := Run(Empty, evs);
    AlwaysInTime(Empty, evs);
    CoherentIsSound(q, s);
    CoherentIsSound(Midway(BeginBatch(q, now), callbacks, n, k), s);
  }
}
